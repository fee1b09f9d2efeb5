/** What the awaitables of `awaitable.hpp` share: a cell for the parent's handle, and the threads
    that may take the handle out of it. */
module Handshake {
  /** A thread that may hold a claimed handle: a runner, or the parent's call number `a` of `await_suspend`. */
  datatype Agent = RunnerOf(i: nat) | CheckOf(a: nat)

  /** The parent's handle is in exactly one place: with the parent, in the cell, or claimed once. */
  ghost predicate TokenOk<A(!new)>(handle: bool, claims: set<A>, suspended: bool) {
    if suspended then (handle && claims == {}) || (!handle && exists g :: claims == {g})
    else !handle && claims == {}
  }

  lemma TokenCount<A(!new)>(handle: bool, claims: set<A>, suspended: bool)
    requires TokenOk(handle, claims, suspended)
    ensures (if handle then 1 else 0) + |claims| + (if suspended then 0 else 1) == 1
  {
    if !handle && suspended {
      var g :| claims == {g};
    }
  }
}
