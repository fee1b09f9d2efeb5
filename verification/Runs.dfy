/**
 Runs of a transition system: finite sequences of states that begin in an initial state and
 move by single steps. What every step keeps holds in every state of every run.
 */
module Runs {
  ghost predicate StepAt<S(!new)>(b: seq<S>, next: (S, S) -> bool, i: nat)
    requires i + 1 < |b|
  {
    next(b[i], b[i + 1])
  }

  ghost predicate IsRun<S(!new)>(b: seq<S>, init: S -> bool, next: (S, S) -> bool) {
    && |b| > 0 && init(b[0])
    && forall i: nat :: i + 1 < |b| ==> StepAt(b, next, i)
  }

  /** Some run ends in this state. */
  ghost predicate Reachable<S(!new)>(s: S, init: S -> bool, next: (S, S) -> bool) {
    exists b :: IsRun(b, init, next) && b[|b| - 1] == s
  }

  ghost predicate Inductive<S(!new)>(init: S -> bool, next: (S, S) -> bool, inv: S -> bool) {
    && (forall s :: init(s) ==> inv(s))
    && (forall s, s' :: inv(s) && next(s, s') ==> inv(s'))
  }

  lemma {:induction false} InvariantAt<S(!new)>(b: seq<S>, init: S -> bool, next: (S, S) -> bool, inv: S -> bool,
      k: nat)
    requires IsRun(b, init, next) && Inductive(init, next, inv) && k < |b|
    ensures inv(b[k])
  {
    if k > 0 {
      InvariantAt(b, init, next, inv, k - 1);
      assert StepAt(b, next, k - 1);
    }
  }

  lemma ReachableInvariant<S(!new)>(s: S, init: S -> bool, next: (S, S) -> bool, inv: S -> bool)
    requires Reachable(s, init, next) && Inductive(init, next, inv)
    ensures inv(s)
  {
    var b :| IsRun(b, init, next) && b[|b| - 1] == s;
    InvariantAt(b, init, next, inv, |b| - 1);
  }

  lemma InitialIsReachable<S(!new)>(s: S, init: S -> bool, next: (S, S) -> bool)
    requires init(s)
    ensures Reachable(s, init, next)
  {
    assert IsRun([s], init, next);
    assert [s][|[s]| - 1] == s;
  }

  lemma Extend<S(!new)>(b: seq<S>, s': S, init: S -> bool, next: (S, S) -> bool)
    requires IsRun(b, init, next) && next(b[|b| - 1], s')
    ensures IsRun(b + [s'], init, next)
  {
    var b' := b + [s'];
    forall i: nat | i + 1 < |b'| ensures StepAt(b', next, i) {
      if i + 1 < |b| { assert StepAt(b, next, i); }
    }
  }

  lemma StepIsReachable<S(!new)>(s: S, s': S, init: S -> bool, next: (S, S) -> bool)
    requires Reachable(s, init, next) && next(s, s')
    ensures Reachable(s', init, next)
  {
    var b :| IsRun(b, init, next) && b[|b| - 1] == s;
    Extend(b, s', init, next);
    assert (b + [s'])[|b + [s']| - 1] == s';
  }

  /** A preorder that every step from a good state respects relates any earlier to any later state. */
  lemma {:induction false} Monotone<S(!new)>(b: seq<S>, init: S -> bool, next: (S, S) -> bool, inv: S -> bool,
      rel: (S, S) -> bool, i: nat, j: nat)
    requires IsRun(b, init, next) && Inductive(init, next, inv) && i <= j < |b|
    requires forall s, s' :: inv(s) && next(s, s') ==> rel(s, s')
    requires forall s :: rel(s, s)
    requires forall s, m, s' :: rel(s, m) && rel(m, s') ==> rel(s, s')
    ensures rel(b[i], b[j])
  {
    if i < j {
      Monotone(b, init, next, inv, rel, i, j - 1);
      InvariantAt(b, init, next, inv, j - 1);
      assert StepAt(b, next, j - 1);
    }
  }

  // ---------- Runs with the events that made them ----------

  ghost predicate MovesAt<S(!new), E(!new)>(b: seq<S>, es: seq<E>, step: (S, E, S) -> bool, i: nat)
    requires i + 1 < |b| && i < |es|
  {
    step(b[i], es[i], b[i + 1])
  }

  /** The run that the events make: each is what some thread was asked to do, not what the state says of it. */
  ghost predicate IsTrace<S(!new), E(!new)>(b: seq<S>, es: seq<E>, init: S -> bool, step: (S, E, S) -> bool) {
    && |b| == |es| + 1 && init(b[0])
    && forall i: nat :: i < |es| ==> MovesAt(b, es, step, i)
  }

  lemma TraceIsRun<S(!new), E(!new)>(b: seq<S>, es: seq<E>, init: S -> bool, step: (S, E, S) -> bool, next: (S, S) -> bool)
    requires IsTrace(b, es, init, step)
    requires forall s, e, s' :: step(s, e, s') ==> next(s, s')
    ensures IsRun(b, init, next)
  {
    forall i: nat | i + 1 < |b| ensures StepAt(b, next, i) { assert MovesAt(b, es, step, i); }
  }

  // ---------- What can follow a given state ----------

  ghost function Only<S(!new)>(from: S): S -> bool {
    s => s == from
  }

  /** Some sequence of steps leads from the one state to the other. */
  ghost predicate Follows<S(!new)>(from: S, s: S, next: (S, S) -> bool) {
    Reachable(s, Only(from), next)
  }

  lemma FollowsItself<S(!new)>(s: S, next: (S, S) -> bool)
    ensures Follows(s, s, next)
  {
    InitialIsReachable(s, Only(s), next);
  }

  lemma FollowsStep<S(!new)>(from: S, s: S, s': S, next: (S, S) -> bool)
    requires Follows(from, s, next) && next(s, s')
    ensures Follows(from, s', next)
  {
    StepIsReachable(s, s', Only(from), next);
  }

  lemma FollowsInvariant<S(!new)>(from: S, s: S, next: (S, S) -> bool, inv: S -> bool)
    requires Follows(from, s, next) && inv(from)
    requires forall x, x' :: inv(x) && next(x, x') ==> inv(x')
    ensures inv(s)
  {
    ReachableInvariant(s, Only(from), next, inv);
  }
}
