/** What can become of an await of `wait_each`, seen from the state in which it begins or suspends. */
module WaitEachOutlook {
  import opened Counting
  import opened GapQueues
  import opened Handshake
  import opened Outcomes
  import opened WaitEach
  import opened WaitEachTheorems
  import Runs

  // ---------- Can it be misled? ----------

  /** Under some schedule the await that begins now yields nothing although results are outstanding. */
  ghost predicate CanMislead(s: State)
    requires s.parent.Running?
  {
    exists s' :: Follows(Apply(s, LoadRemaining), s') && Misled(s')
  }

  predicate TwoBusy(runners: seq<Runner>) {
    exists i, j :: 0 <= i < j < |runners| && !runners[i].Finished? && !runners[j].Finished?
  }

  /** A re-check of an earlier await that can still take the handle although nothing is reachable. */
  predicate StaleClaim(s: State, a: nat) {
    a < |s.checks| && (s.checks[a].Exchanging? || ReadsFreed(s, a))
  }

  predicate SomeStaleClaim(s: State) {
    exists a: nat :: a < |s.checks| && StaleClaim(s, a)
  }

  /** An await that begins now can be misled exactly if nothing is reachable, results are outstanding,
      and somebody besides the runner in front can wake the parent: another unfinished runner, or a
      stale re-check that is past its loads or whose head was deleted between them. */
  lemma CanMisleadIff(s: State, r: Outcome)
    requires Reachable(s) && s.parent.Running?
    ensures CanMislead(s) <==>
      !s.queue.CanTake() && |s.delivered| < |s.runners| && (TwoBusy(s.runners) || SomeStaleClaim(s))
  {
    var from := Apply(s, LoadRemaining);
    StepReachable(s, LoadRemaining);
    if s' :| Follows(from, s') && Misled(s') {
      NotMisledByOthers(s, s');
    }
    if !s.queue.CanTake() && |s.delivered| < |s.runners| && (TwoBusy(s.runners) || SomeStaleClaim(s)) {
      var s' := Mislead(s, r);
    }
  }

  /** What holds from the beginning of the await until it has dequeued something. */
  ghost predicate Unmoved(from: State, s: State) {
    && Reachable(s) && |s.runners| == |from.runners|
    && from.queue.taken <= s.queue.taken && (!s.parent.Running? ==> s.queue.taken == from.queue.taken)
  }

  lemma UnmovedStep(from: State, s: State, e: Event)
    requires Unmoved(from, s) && Enabled(s, e) && !e.LoadRemaining?
    ensures Unmoved(from, Apply(s, e))
  {
    StepReachable(s, e);
  }

  lemma NotMisledByOthers(s: State, s': State)
    requires Reachable(s) && s.parent.Running? && Follows(Apply(s, LoadRemaining), s') && Misled(s')
    ensures !s.queue.CanTake() && |s.delivered| < |s.runners| && (TwoBusy(s.runners) || SomeStaleClaim(s))
  {
    var from := Apply(s, LoadRemaining);
    StepReachable(s, LoadRemaining);
    ReachableInv(s);
    var inv := (x: State) => Unmoved(from, x);
    forall x, x' | inv(x) && SameAwait(x, x') ensures inv(x') {
      var e :| Enabled(x, e) && !e.LoadRemaining? && x' == Apply(x, e);
      UnmovedStep(from, x, e);
    }
    Runs.FollowsInvariant(from, s', SameAwait, inv);
    ReachableInv(s');
    assert |s.delivered| < |s.runners|;
    if s.queue.CanTake() { StaysReachable(from, s'); }
    if !TwoBusy(s.runners) && !SomeStaleClaim(s) {
      forall a: nat | a < |from.checks| ensures !StaleClaim(from, a) { assert !StaleClaim(s, a); }
      LoneInit(from);
      LoneForGood(from, s');
      MisledIff(s');
    }
  }

  ghost predicate FrontReachable(from: State, s: State) {
    Unmoved(from, s) && (s.queue.taken == from.queue.taken ==> s.queue.CanTake())
  }

  lemma StaysReachable(from: State, s: State)
    requires Reachable(from) && from.queue.CanTake() && Follows(from, s)
    ensures s.queue.taken == from.queue.taken ==> s.queue.CanTake()
  {
    var inv := (x: State) => FrontReachable(from, x);
    forall x, x' | inv(x) && SameAwait(x, x') ensures inv(x') {
      var e :| Enabled(x, e) && !e.LoadRemaining? && x' == Apply(x, e);
      UnmovedStep(from, x, e);
    }
    Runs.FollowsInvariant(from, s, SameAwait, inv);
  }

  /** With at most one runner unfinished and no stale claim, whoever lets the parent go on has seen the
      oldest outstanding result linked. */
  ghost predicate Lone(from: State, s: State) {
    && Unmoved(from, s) && !TwoBusy(s.runners)
    && (s.queue.taken == from.queue.taken ==>
          && (forall a :: 0 <= a < |s.checks| && s.checks[a].Looking? ==> s.checks[a].at == from.queue.taken)
          && (SomebodyWakes(s) ==> s.queue.CanTake()))
  }

  ghost predicate SomebodyWakes(s: State) {
    s.claims != {} || s.parent == Taking(Woken) || exists a :: 0 <= a < |s.checks| && s.checks[a].Exchanging?
  }

  lemma LoneInit(from: State)
    requires Reachable(from) && !TwoBusy(from.runners) && !SomeStaleClaim(from)
    requires from.parent.Testing? || from.parent == Taking(SawZero)
    ensures Lone(from, from)
  {
    ReachableInv(from);
    forall a: nat | a < |from.checks| ensures !StaleClaim(from, a) && !from.checks[a].Exchanging? && !ReadsFreed(from, a) {
      assert !StaleClaim(from, a);
    }
  }

  lemma LoneStep(from: State, s: State, e: Event)
    requires Lone(from, s) && Enabled(s, e) && !e.LoadRemaining? && from.queue.taken < |from.runners|
    ensures Lone(from, Apply(s, e))
  {
    UnmovedStep(from, s, e);
    BusyStep(s, e);
    if e.Exchange? && s.queue.taken == from.queue.taken {
      LastRunnerIsLinked(s, e.i);
    }
  }

  lemma BusyStep(s: State, e: Event)
    requires !TwoBusy(s.runners) && Enabled(s, e)
    ensures !TwoBusy(Apply(s, e).runners)
  {
    var s' := Apply(s, e);
    forall i, j | 0 <= i < j < |s'.runners| ensures s'.runners[i].Finished? || s'.runners[j].Finished? {
      assert s.runners[i].Finished? || s.runners[j].Finished?;
    }
  }

  /** The one runner left is about to exchange, so every result is linked. */
  lemma LastRunnerIsLinked(s: State, i: nat)
    requires Reachable(s) && Enabled(s, Exchange(i)) && !TwoBusy(s.runners) && s.queue.taken < |s.runners|
    ensures s.queue.CanTake()
  {
    ReachableInv(s);
    forall j | 0 <= j < |s.runners| ensures s.runners[j].Finished? || s.runners[j].Decremented? {
      if j != i { assert s.runners[i].Finished? || s.runners[j].Finished?; }
    }
    AllPlaced(s.runners);
    assert PlaceOk(s.queue, s.runners, s.queue.taken);
  }

  lemma LoneForGood(from: State, s: State)
    requires Lone(from, from) && from.queue.taken < |from.runners| && Follows(from, s)
    ensures Lone(from, s)
  {
    var inv := (x: State) => Lone(from, x);
    forall x, x' | inv(x) && SameAwait(x, x') ensures inv(x') {
      var e :| Enabled(x, e) && !e.LoadRemaining? && x' == Apply(x, e);
      LoneStep(from, x, e);
    }
    Runs.FollowsInvariant(from, s, SameAwait, inv);
  }

  // ---------- The schedules that mislead it ----------

  /** The runner whose result is, or will be, the oldest outstanding one. */
  lemma FrontRunner(s: State) returns (f: nat)
    requires Reachable(s) && !s.queue.CanTake() && |s.delivered| < |s.runners|
    ensures f < |s.runners| && s.remaining > 0 && s.queue.taken <= |s.queue.items|
    ensures if s.queue.taken < |s.queue.items| then s.runners[f] == Unlinked(s.queue.taken) else s.runners[f].Working?
  {
    ReachableInv(s);
    TotalBounds(s.runners, Outstanding);
    if s.queue.taken < |s.queue.items| {
      assert PlaceOk(s.queue, s.runners, s.queue.taken);
      f := s.queue.items[s.queue.taken].id;
    } else if forall i :: 0 <= i < |s.runners| ==> !s.runners[i].Working? {
      AllPlaced(s.runners);
      assert false;
    } else {
      f :| 0 <= f < |s.runners| && s.runners[f].Working?;
    }
    assert Outstanding(s.runners[f]) == 1;
  }

  lemma Mislead(s: State, r: Outcome) returns (s': State)
    requires Reachable(s) && s.parent.Running? && !s.queue.CanTake() && |s.delivered| < |s.runners|
    requires TwoBusy(s.runners) || SomeStaleClaim(s)
    ensures Follows(Apply(s, LoadRemaining), s') && Misled(s')
  {
    var f := FrontRunner(s);
    var from := Apply(s, LoadRemaining);
    s' := Park(s);
    if a: nat :| a < |s.checks| && StaleClaim(s, a) {
      assert StaleClaim(s', a);
      s' := WakeByCheck(from, s', a);
    } else {
      var i, j :| 0 <= i < j < |s.runners| && !s.runners[i].Finished? && !s.runners[j].Finished?;
      var k := if i == f then j else i;
      StaysHidden(s', f, k);
      if s.runners[f].Working? && s.runners[k].Working? { s' := Go(from, s', Publish(f, r)); }
      s' := WakeByRunner(from, s', k, r);
    }
  }

  /** Nothing is reachable, so the await suspends. */
  lemma Park(s: State) returns (s': State)
    requires Reachable(s) && s.parent.Running? && !s.queue.CanTake() && s.remaining != 0
    ensures Reachable(s') && Follows(Apply(s, LoadRemaining), s')
    ensures s' == s.(parent := Suspended, handle := true, checks := s.checks + [Checking], begun := |s.delivered|, left := s.remaining)
    ensures s'.claims == {}
  {
    ReachableInv(s);
    var from := Apply(s, LoadRemaining);
    StepReachable(s, LoadRemaining);
    Runs.FollowsItself(from, SameAwait);
    s' := Go(from, from, TestEmpty);
    s' := Go(from, s', StoreHandle);
  }

  lemma WakeByCheck(from: State, s: State, a: nat) returns (s': State)
    requires Reachable(s) && Follows(from, s) && s.parent.Suspended? && s.handle && s.claims == {}
    requires StaleClaim(s, a)
    ensures Follows(from, s') && s'.parent == Taking(Woken) && s'.queue == s.queue
    ensures s'.delivered == s.delivered && s'.runners == s.runners
    ensures s'.checks == s.checks[a := Done]
  {
    s' := s;
    if s'.checks[a].Looking? { s' := Go(from, s', RecheckNext(a, true)); }
    s' := Go(from, s', CheckExchange(a));
    s' := Go(from, s', Resume(CheckOf(a)));
  }

  /** A runner other than the one in front goes through its exchange. */
  lemma WakeByRunner(from: State, s: State, k: nat, r: Outcome) returns (s': State)
    requires Reachable(s) && Follows(from, s) && s.parent.Suspended? && s.handle && s.claims == {}
    requires k < |s.runners| && !s.runners[k].Finished?
    ensures Follows(from, s') && s'.parent == Taking(Woken) && s'.delivered == s.delivered && |s'.runners| == |s.runners|
    ensures s'.checks == s.checks && s'.queue.taken == s.queue.taken
    ensures Hidden(s, k) ==> !s'.queue.CanTake()
  {
    s' := s;
    if s'.runners[k].Working? { s' := Go(from, s', Publish(k, r)); }
    if s'.runners[k].Unlinked? { s' := Go(from, s', Link(k)); }
    if s'.runners[k].Linked? { s' := Go(from, s', Decrement(k)); }
    s' := Go(from, s', Exchange(k));
    s' := Go(from, s', Resume(RunnerOf(k)));
  }

  /** Whatever runner `k` does, the oldest outstanding result stays out of reach. */
  predicate Hidden(s: State, k: nat)
    requires k < |s.runners|
  {
    if s.queue.taken < |s.queue.items| then s.queue.taken in s.queue.missing && s.runners[k] != Unlinked(s.queue.taken)
    else !s.runners[k].Working? && !s.runners[k].Unlinked?
  }

  lemma StaysHidden(s: State, f: nat, k: nat)
    requires Reachable(s) && !s.queue.CanTake() && f < |s.runners| && k < |s.runners| && f != k
    requires if s.queue.taken < |s.queue.items| then s.runners[f] == Unlinked(s.queue.taken) else s.runners[f].Working?
    ensures Hidden(s, k) || (s.runners[f].Working? && s.runners[k].Working?)
  {
    ReachableInv(s);
    assert RunnerOk(s.queue, s.runners[f], f) && RunnerOk(s.queue, s.runners[k], k);
    if !s.runners[k].Working? { assert PlaceOk(s.queue, s.runners, s.runners[k].place); }
  }

  // ---------- Can await_suspend outlive its await? ----------

  /** Call number `a` of `await_suspend` has accesses of the awaitable left to make although the
      coroutine that it suspended has gone on, and may have destroyed the awaitable. */
  ghost predicate Late(s: State, a: nat) {
    a < |s.checks| && !s.checks[a].Done? && !(s.parent.Suspended? && a == |s.checks| - 1)
  }

  /** A re-check of an earlier await that takes the handle without help. */
  predicate Claimable(s: State, a: nat) {
    a < |s.checks| && !s.checks[a].Done? && (s.checks[a].Exchanging? || ReadsFreed(s, a) || s.queue.CanTake())
  }

  /** Somebody other than the suspending thread can wake a coroutine that stores its handle now. */
  ghost predicate OthersCanWake(s: State) {
    || (exists i :: 0 <= i < |s.runners| && !s.runners[i].Finished?)
    || (exists a: nat :: a < |s.checks| && Claimable(s, a))
  }

  /** The call that stores the handle now can outlive the await exactly if somebody else can wake it. */
  lemma CanBeLateIff(s: State, r: Outcome)
    requires Reachable(s) && s.parent.Storing?
    ensures (exists s' :: Follows(Apply(s, StoreHandle), s') && Late(s', |s.checks|)) <==> OthersCanWake(s)
  {
    ReachableInv(s);
    StepReachable(s, StoreHandle);
    var from := Apply(s, StoreHandle);
    Runs.FollowsItself(from, SameAwait);
    if i :| 0 <= i < |s.runners| && !s.runners[i].Finished? {
      var s' := WakeByRunner(from, from, i, r);
      assert Late(s', |s.checks|);
    } else if a: nat :| a < |s.checks| && Claimable(s, a) {
      var s' := ClaimByCheck(from, a);
      assert Late(s', |s.checks|);
    } else if s' :| Follows(from, s') && Late(s', |s.checks|) {
      forall a: nat | a < |s.checks| ensures !Claimable(from, a) { assert !Claimable(s, a); }
      NobodyElseWakes(from, s', |s.checks|);
    }
  }

  lemma ClaimByCheck(from: State, a: nat) returns (s': State)
    requires Reachable(from) && from.parent.Suspended? && from.handle && from.claims == {} && Claimable(from, a)
    ensures Follows(from, s') && s'.parent == Taking(Woken) && s'.checks == from.checks[a := Done]
  {
    Runs.FollowsItself(from, SameAwait);
    s' := from;
    if s'.checks[a].Checking? { s' := Go(from, s', RecheckHead(a)); }
    if s'.checks[a].Looking? { s' := Go(from, s', RecheckNext(a, true)); }
    s' := Go(from, s', CheckExchange(a));
    s' := Go(from, s', Resume(CheckOf(a)));
  }

  /** Until call `k` is over, the handle stays in the cell and no other thread can take it. */
  ghost predicate OnlySuspender(s: State, k: nat) {
    && Reachable(s) && |s.checks| == k + 1 && (forall i :: 0 <= i < |s.runners| ==> s.runners[i].Finished?)
    && (!s.parent.Running? || s.checks[k].Done?) && !s.parent.Testing? && !s.parent.Storing?
    && (s.checks[k].Done? || (s.parent.Suspended? && s.handle && forall a: nat :: a < k ==> !Claimable(s, a)))
  }

  lemma OnlySuspenderStep(s: State, k: nat, e: Event)
    requires OnlySuspender(s, k) && Enabled(s, e) && !e.LoadRemaining?
    ensures OnlySuspender(Apply(s, e), k)
  {
    ReachableInv(s);
    StepReachable(s, e);
    var s' := Apply(s, e);
    if e.RecheckNext? || e.CheckExchange? { assert e.a < k ==> !Claimable(s, e.a) || s.checks[k].Done?; }
    if !s'.checks[k].Done? {
      forall a: nat | a < k ensures !Claimable(s', a) { assert !Claimable(s, a); }
    }
  }

  lemma NobodyElseWakes(from: State, s: State, k: nat)
    requires OnlySuspender(from, k) && Follows(from, s)
    ensures !Late(s, k)
  {
    var inv := (x: State) => OnlySuspender(x, k);
    forall x, x' | inv(x) && SameAwait(x, x') ensures inv(x') {
      var e :| Enabled(x, e) && !e.LoadRemaining? && x' == Apply(x, e);
      OnlySuspenderStep(x, k, e);
    }
    Runs.FollowsInvariant(from, s, SameAwait, inv);
  }
}
