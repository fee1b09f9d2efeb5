/** `Mutex`: a semaphore with one permit whose users release only what they hold. */
module Mutexes {
  import opened Counting
  import opened Semaphores
  import Runs

  datatype MutexState = MutexState(
    sem: Semaphores.State,
    holders: set<nat>)  // acquires that were granted and have not called unlock

  datatype Event =
    | Lock(t: nat) | TryLock(t: nat) | Unlock(t: nat, id: nat)
    | Inner(e: Semaphores.Event)  // a later step of a lock, try_lock or unlock

  ghost predicate Init(m: MutexState) {
    exists n: nat :: m == MutexState(Semaphores.Start(1, n), {})
  }

  function Began(e: Event): Semaphores.Event {
    match e
    case Lock(t) => Begin(t, Acquire)
    case TryLock(t) => Begin(t, TryAcquire)
    case Unlock(t, _) => Begin(t, Release(1))
    case Inner(e) => e
  }

  /** Only a holder unlocks. */
  predicate Enabled(m: MutexState, e: Event) {
    && Semaphores.Enabled(m.sem, Began(e))
    && (e.Inner? ==> !e.e.Begin?)
    && (e.Unlock? ==> e.id in m.holders)
  }

  function Apply(m: MutexState, e: Event): MutexState
    requires Enabled(m, e)
  {
    var sem' := Semaphores.Apply(m.sem, Began(e));
    var kept := if e.Unlock? then m.holders - {e.id} else m.holders;
    var added := if |sem'.grants| > |m.sem.grants| then {sem'.grants[|m.sem.grants|]} else {};
    MutexState(sem', kept + added)
  }

  ghost predicate Next(m: MutexState, m': MutexState) {
    exists e :: Enabled(m, e) && m' == Apply(m, e)
  }

  ghost predicate Reachable(m: MutexState) {
    Runs.Reachable(m, Init, Next)
  }

  /** An unlock that has begun but not yet swapped. */
  function Unlocking(p: Thread): int { if p.Loaded? && p.op.Release? then 1 else 0 }

  ghost predicate Inv(m: MutexState) {
    && Semaphores.ExactInv(m.sem) && m.sem.init == 1
    && (forall t :: 0 <= t < |m.sem.threads| && m.sem.threads[t].Loaded? && m.sem.threads[t].op.Release?
                    ==> m.sem.threads[t].op.n == 1)
    && (forall h <- m.holders :: h in m.sem.grants)
    && |m.holders| + Total(m.sem.threads, Unlocking) == |m.sem.grants| - m.sem.released
  }

  lemma {:induction false} StartTotal(n: nat)
    ensures Total(seq(n, i => Idle), Unlocking) == 0
  {
    if n > 0 {
      assert seq(n, i => Idle)[1..] == seq(n - 1, i => Idle);
      StartTotal(n - 1);
    }
  }

  lemma InitInv(m: MutexState)
    requires Init(m)
    ensures Inv(m)
  {
    var n: nat :| m == MutexState(Semaphores.Start(1, n), {});
    StartTotal(n);
    StartTotals(n);
  }

  /** A step grants at most one acquire, and one that was not granted before. */
  lemma FreshGrant(s: Semaphores.State, e: Semaphores.Event)
    requires Semaphores.Inv(s) && Semaphores.Enabled(s, e)
    ensures var s' := Semaphores.Apply(s, e);
      s'.grants == s.grants || (|s'.grants| == |s.grants| + 1 && s.grants <= s'.grants && s'.grants[|s.grants|] !in s.grants)
  {
  }

  lemma HoldersStep(m: MutexState, e: Event)
    requires Inv(m) && Enabled(m, e)
    ensures var m' := Apply(m, e);
      && (forall h <- m'.holders :: h in m'.sem.grants)
      && |m'.holders| == |m.holders| - (if e.Unlock? then 1 else 0) + |m'.sem.grants| - |m.sem.grants|
  {
    FreshGrant(m.sem, Began(e));
  }

  lemma ReleasedStep(m: MutexState, e: Event)
    requires Inv(m) && Enabled(m, e)
    ensures var s' := Semaphores.Apply(m.sem, Began(e));
      && Total(s'.threads, Unlocking)
         == Total(m.sem.threads, Unlocking) + (if e.Unlock? then 1 else 0) - (s'.released - m.sem.released)
      && s'.init == 1
      && (forall t :: 0 <= t < |s'.threads| && s'.threads[t].Loaded? && s'.threads[t].op.Release? ==> s'.threads[t].op.n == 1)
  {
    var t := Began(e).t;
    TotalUpdate(m.sem.threads, t, Semaphores.Apply(m.sem, Began(e)).threads[t], Unlocking);
  }

  lemma StepKeepsInv(m: MutexState, e: Event)
    requires Inv(m) && Enabled(m, e)
    ensures Inv(Apply(m, e))
  {
    Semaphores.StepKeepsInv(m.sem, Began(e));
    ExactStepIff(m.sem, Began(e));
    HoldersStep(m, e);
    ReleasedStep(m, e);
  }

  lemma ReachableInv(m: MutexState)
    requires Reachable(m)
    ensures Inv(m)
  {
    forall m | Init(m) ensures Inv(m) { InitInv(m); }
    forall m, m' | Inv(m) && Next(m, m') ensures Inv(m') {
      var e :| Enabled(m, e) && m' == Apply(m, e);
      StepKeepsInv(m, e);
    }
    Runs.ReachableInvariant(m, Init, Next, Inv);
  }

  /** The three calls reach the semaphore as an acquire, a try_acquire and the release of one permit. */
  lemma CallsReachSemaphore(m: MutexState, e: Event)
    requires Enabled(m, e) && !e.Inner?
    ensures var op := if e.Lock? then Acquire else if e.TryLock? then TryAcquire else Release(1);
      e.t < |m.sem.threads| && Apply(m, e).sem == m.sem.(threads := m.sem.threads[e.t := Loaded(op, m.sem.counter)])
    ensures Apply(m, e).holders == if e.Unlock? then m.holders - {e.id} else m.holders
  {
  }

  // ---------- What every run guarantees ----------

  /** The one permit is held, about to be given back, on its way to a waiter, or free. */
  lemma OnePermit(m: MutexState)
    requires Reachable(m)
    ensures |m.holders| + Total(m.sem.threads, Unlocking) + Outstanding(m.sem) + Max(m.sem.counter.count, 0) == 1
  {
    ReachableInv(m);
  }

  lemma MutualExclusion(m: MutexState)
    requires Reachable(m)
    ensures |m.holders| <= 1
    ensures forall h, k :: h in m.holders && k in m.holders ==> h == k
  {
    ReachableInv(m);
    TotalsNonNegative(m.sem.threads);
    forall h, k | h in m.holders && k in m.holders ensures h == k {
      if h != k { assert {h, k} <= m.holders && |{h, k}| == 2; SubsetSize({h, k}, m.holders); }
    }
  }

  lemma TotalsNonNegative(threads: seq<Thread>)
    ensures 0 <= Total(threads, Unlocking) && 0 <= Total(threads, Tickets) && 0 <= Total(threads, Pending)
  {
    TotalBounds(threads, Unlocking);
    forall p | p in threads ensures 0 <= Tickets(p) {}
    TotalBounds(threads, Tickets);
    TotalBounds(threads, Pending);
  }

  lemma {:induction false} SubsetSize(a: set<nat>, b: set<nat>)
    requires a <= b
    ensures |a| <= |b|
  {
    assert b == a + (b - a);
  }

  /** With no holder, no unlock under way and no wake-up owed the lock is free and nobody waits. */
  lemma NoIdleLock(m: MutexState)
    requires Reachable(m) && m.holders == {}
    requires Total(m.sem.threads, Unlocking) == 0 && Outstanding(m.sem) == 0
    ensures m.sem.counter == Counter(1, 0)
    ensures m.sem.waiting.taken == |m.sem.waiting.items|
    ensures forall t :: 0 <= t < |m.sem.threads| ==> !m.sem.threads[t].Enqueuing?
  {
    ReachableInv(m);
    TotalsNonNegative(m.sem.threads);
    TotalBounds(m.sem.threads, Pending);
    forall t | 0 <= t < |m.sem.threads| ensures !m.sem.threads[t].Enqueuing? {
      assert Pending(m.sem.threads[t]) == 0;
    }
  }
}
