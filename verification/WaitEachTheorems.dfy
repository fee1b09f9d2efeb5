/** What every run of `wait_each` guarantees, and the one hang it allows. */
module WaitEachTheorems {
  import opened Counting
  import opened GapQueues
  import opened Handshake
  import opened Outcomes
  import opened WaitEach
  import Runs

  // ---------- No result is stranded ----------

  /** If the handle is parked and an enqueued result is undelivered, some runner still has its
      exchange to do or the `await_suspend` that parked it has not finished its re-check. Stale
      re-checks of earlier awaits, whatever they read, are not needed for this. */
  lemma StrandsNothing(s: State)
    requires Reachable(s) && s.handle && |s.delivered| < |s.queue.items|
    ensures SomePending(s.runners, s.checks)
  {
    ReachableInv(s);
  }

  /** Every runner that has published is through its exchange and the latest re-check is over. */
  ghost predicate Quiet(s: State) {
    !SomePending(s.runners, s.checks)
  }

  /** Once those threads are done, a parked parent has every enqueued result, in queue order. */
  lemma QuietParkedHasAll(s: State)
    requires Reachable(s) && Quiet(s) && s.handle
    ensures s.delivered == s.queue.items
  {
    ReachableInv(s);
  }

  // ---------- One token ----------

  /** The parent's handle is with the parent, in the cell or with one claimant; nobody resumes
      a parent that is not suspended. */
  lemma SingleToken(s: State)
    requires Reachable(s)
    ensures !s.fault
    ensures (if s.handle then 1 else 0) + |s.claims| + (if s.parent.Suspended? then 0 else 1) == 1
  {
    ReachableInv(s);
    TokenCount(s.handle, s.claims, s.parent.Suspended?);
  }

  // ---------- The re-check ----------

  /** The re-check of the await that is parked never touches a head that was deleted meanwhile. */
  lemma LatestRecheckIsSafe(s: State, a: nat)
    requires Reachable(s) && s.parent.Suspended? && ReadsFreed(s, a)
    ensures a < |s.checks| - 1
  {
    ReachableInv(s);
  }

  ghost predicate SomeStaleRead(s: State, n: nat, a: nat) {
    Reachable(s) && |s.runners| == n && ReadsFreed(s, a)
  }

  /** The re-check of an earlier await can, with any number of operands but none. */
  lemma StaleRecheckIff(n: nat, r: Outcome)
    ensures (exists s, a :: SomeStaleRead(s, n, a)) <==> n > 0
  {
    if n > 0 {
      var s := StaleRecheck(n, r);
      assert SomeStaleRead(s, n, 0);
    } else if s, a :| SomeStaleRead(s, n, a) {
      ReachableInv(s);
    }
  }

  /** A runner resumes the parent while its `await_suspend` is between the two loads. */
  lemma StaleRecheck(n: nat, r: Outcome) returns (s: State)
    requires n > 0
    ensures Reachable(s) && |s.runners| == n && ReadsFreed(s, 0)
  {
    s := FirstParked(n);
    s := Do(s, RecheckHead(0));
    s := Do(s, Publish(0, r));
    s := Do(s, Link(0));
    s := Do(s, Decrement(0));
    s := Do(s, Exchange(0));
    s := Do(s, Resume(RunnerOf(0)));
    s := Do(s, Dequeue);
  }

  /** The first await has parked the handle before any runner published. */
  lemma FirstParked(n: nat) returns (s: State)
    requires n > 0
    ensures Reachable(s)
    ensures s == State(Empty(), n, true, seq(n, i => Working), [Checking], Suspended, {}, [], 0, n, false)
  {
    Runs.InitialIsReachable(Start(n), Init, Next);
    s := Do(Start(n), LoadRemaining);
    s := Do(s, TestEmpty);
    s := Do(s, StoreHandle);
  }

  // ---------- Delivery ----------

  /** Each index has at most one place in the queue and has one exactly when its runner is past
      the enqueue: what is delivered, queued and not yet produced partitions the indices. */
  lemma Partition(s: State, i: nat)
    requires Reachable(s) && i < |s.runners|
    ensures s.delivered <= s.queue.items
    ensures s.runners[i].Working? <==> forall k :: 0 <= k < |s.queue.items| ==> s.queue.items[k].id != i
    ensures forall j, k :: 0 <= j < k < |s.queue.items| ==> s.queue.items[j].id != s.queue.items[k].id
    ensures forall k :: 0 <= k < |s.queue.items| ==> s.queue.items[k].id < |s.runners|
  {
    ReachableInv(s);
    assert RunnerOk(s.queue, s.runners[i], i);
    forall k | 0 <= k < |s.queue.items|
      ensures s.queue.items[k].id < |s.runners| && !s.runners[s.queue.items[k].id].Working?
      ensures s.runners[s.queue.items[k].id].place == k
    {
      assert PlaceOk(s.queue, s.runners, k);
    }
  }

  /** A result reaches the parent as its runner enqueued it, and a delivery is never taken back. */
  lemma StepGrows(s: State, e: Event)
    requires Inv(s) && Enabled(s, e)
    ensures s.queue.items <= Apply(s, e).queue.items && s.delivered <= Apply(s, e).delivered
    ensures e.Publish? ==> Apply(s, e).queue.items == s.queue.items + [Item(e.i, e.r)]
    ensures !e.Publish? ==> Apply(s, e).queue.items == s.queue.items
  {
  }

  /** An await that was ready because the queue was not empty yields a result. */
  lemma ReadyByItemYields(s: State)
    requires Reachable(s) && s.parent == Taking(SawItem)
    ensures |Apply(s, Dequeue).delivered| == |s.delivered| + 1
  {
    ReachableInv(s);
  }

  /** An await that was ready because nothing remained yields a result or all were delivered. */
  lemma ReadyByZeroYieldsOrAll(s: State)
    requires Reachable(s) && s.parent == Taking(SawZero)
    ensures if |s.delivered| < |s.runners| then |Apply(s, Dequeue).delivered| == |s.delivered| + 1
            else |s.delivered| == |s.runners|
  {
    ReachableInv(s);
    TotalBounds(s.runners, Outstanding);
    forall r | r in s.runners ensures Outstanding(r) == 0 {
      var i :| 0 <= i < |s.runners| && s.runners[i] == r;
    }
    AllPlaced(s.runners);
    if s.queue.taken < |s.queue.items| {
      assert PlaceOk(s.queue, s.runners, s.queue.taken);
    }
  }

  /** An await that yields nothing although results are outstanding. */
  ghost predicate Misled(s: State) {
    && s.parent.Taking? && |s.delivered| < |s.runners|
    && Apply(s, Dequeue).delivered == s.delivered
  }

  /** This happens to a parent that was suspended and to no other, exactly when the oldest
      outstanding result is unlinked or not enqueued; if it is enqueued its runner owes the link. */
  lemma MisledIff(s: State)
    requires Reachable(s) && s.parent.Taking?
    ensures Misled(s) <==> s.parent.why == Woken && !s.queue.CanTake() && |s.delivered| < |s.runners|
    ensures Misled(s) && |s.delivered| < |s.queue.items| ==>
      var i := s.queue.items[|s.delivered|].id; i < |s.runners| && s.runners[i] == Unlinked(|s.delivered|)
  {
    ReachableInv(s);
    if s.parent.why == SawZero { ReadyByZeroYieldsOrAll(s); }
    if s.queue.taken < |s.queue.items| {
      assert PlaceOk(s.queue, s.runners, s.queue.taken);
    }
  }

  ghost predicate MisledAmong(s: State, n: nat) {
    Reachable(s) && |s.runners| == n && Misled(s)
  }

  /** With fewer than two operands no schedule leads there; with two or more some schedule does. */
  lemma MisledNeedsTwo(n: nat, r: Outcome)
    ensures (exists s :: MisledAmong(s, n)) <==> n >= 2
  {
    if n >= 2 {
      var s := WokenWithNothingReachable(n, r);
      assert MisledAmong(s, n);
    } else if s :| MisledAmong(s, n) {
      SoloReachable(s);
      ReachableInv(s);
      MisledIff(s);
    }
  }

  /** With one operand whoever lets the parent go on for the first time has seen its result linked. */
  ghost predicate Solo(s: State) {
    |s.runners| <= 1 && s.delivered == []
    && (s.claims != {} || s.parent == Taking(Woken) || exists a :: 0 <= a < |s.checks| && s.checks[a].Exchanging?)
    ==> s.queue.CanTake()
  }

  ghost predicate SoloInv(s: State) {
    Inv(s) && Solo(s)
  }

  lemma SoloStep(s: State, e: Event)
    requires SoloInv(s) && Enabled(s, e)
    ensures Solo(Apply(s, e))
  {
    if |s.runners| <= 1 && 0 < |s.queue.items| {
      assert PlaceOk(s.queue, s.runners, 0);
    }
    if e.Exchange? {
      assert RunnerOk(s.queue, s.runners[e.i], e.i) && PlaceOk(s.queue, s.runners, s.runners[e.i].place);
    }
  }

  lemma SoloReachable(s: State)
    requires Reachable(s)
    ensures SoloInv(s)
  {
    InvIsInductive();
    forall s, s' | SoloInv(s) && Next(s, s') ensures SoloInv(s') {
      var e :| Enabled(s, e) && s' == Apply(s, e);
      SoloStep(s, e);
    }
    Runs.ReachableInvariant(s, Init, Next, SoloInv);
  }

  /** Runner 1 links its result, resumes the parent, and runner 0 has not linked the one in front. */
  lemma WokenWithNothingReachable(n: nat, r: Outcome) returns (s: State)
    requires n >= 2
    ensures Reachable(s) && |s.runners| == n && Misled(s) && s.delivered == [] && |s.queue.items| == 2
  {
    s := FirstParked(n);
    s := Do(s, Publish(0, r));
    s := Do(s, Publish(1, r));
    s := Do(s, Link(1));
    s := Do(s, Decrement(1));
    s := Do(s, Exchange(1));
    s := Do(s, Resume(RunnerOf(1)));
  }

  // ---------- Where the protocol can stop ----------

  /** Every thread is done and the parent's handle still lies in the cell. */
  ghost predicate Stuck(s: State) {
    && s.handle && s.parent.Suspended? && s.claims == {}
    && (forall i :: 0 <= i < |s.runners| ==> s.runners[i].Finished?)
    && (forall a :: 0 <= a < |s.checks| ==> s.checks[a].Done?)
  }

  /** A reachable state without a further step is a parent parked for ever, and nothing else. */
  lemma StuckIsTheOnlyHalt(s: State, r: Outcome)
    requires Reachable(s)
    ensures Stuck(s) <==> forall e :: !Enabled(s, e)
  {
    ReachableInv(s);
    if forall e :: !Enabled(s, e) {
      assert !Enabled(s, LoadRemaining) && !Enabled(s, TestEmpty) && !Enabled(s, StoreHandle) && !Enabled(s, Dequeue);
      forall g ensures g !in s.claims { assert !Enabled(s, Resume(g)); }
      forall i | 0 <= i < |s.runners| ensures s.runners[i].Finished? { NoRunnerStep(s, i, r); }
      forall a | 0 <= a < |s.checks| ensures s.checks[a].Done? {
        assert !Enabled(s, RecheckHead(a)) && !Enabled(s, RecheckNext(a, false)) && !Enabled(s, CheckExchange(a));
      }
    }
  }

  lemma NoRunnerStep(s: State, i: nat, r: Outcome)
    requires i < |s.runners| && forall e :: !Enabled(s, e)
    ensures s.runners[i].Finished?
  {
    assert !Enabled(s, Publish(i, r)) && !Enabled(s, Link(i)) && !Enabled(s, Decrement(i)) && !Enabled(s, Exchange(i));
  }

  /** Only an await that began after all N results were delivered, and found `remaining` not zero
      then, is parked for ever. */
  lemma StuckOnlyAfterLastResult(s: State)
    requires Reachable(s) && Stuck(s)
    ensures s.begun == |s.delivered| == |s.runners| && 0 < |s.runners| && s.left != 0
  {
    ReachableInv(s);
    AllPlaced(s.runners);
  }

  /** A step that does not begin another await. */
  ghost predicate SameAwait(s: State, s': State) {
    exists e :: Enabled(s, e) && !e.LoadRemaining? && s' == Apply(s, e)
  }

  /** State `s` can follow `from` before the parent begins another await. */
  ghost predicate Follows(from: State, s: State) {
    Runs.Follows(from, s, SameAwait)
  }

  /** Under some schedule the await that begins now is parked for ever. */
  ghost predicate CanPark(s: State)
    requires s.parent.Running?
  {
    exists s' :: Follows(Apply(s, LoadRemaining), s') && Stuck(s')
  }

  /** An await can be parked for ever exactly if it begins when all results are delivered and
      `remaining` has not come down to zero: `await_suspend` does not look at it again. */
  lemma CanParkIff(s: State)
    requires Reachable(s) && s.parent.Running?
    ensures CanPark(s) <==> |s.delivered| == |s.runners| && s.remaining != 0
  {
    var from := Apply(s, LoadRemaining);
    StepReachable(s, LoadRemaining);
    if s' :| Follows(from, s') && Stuck(s') {
      FollowsKeeps(from, s');
      StuckOnlyAfterLastResult(s');
    }
    if |s.delivered| == |s.runners| && s.remaining != 0 {
      var s' := LastAwait(s);
    }
  }

  ghost predicate SameBeginning(from: State, s: State) {
    Reachable(s) && s.begun == from.begun && s.left == from.left && |s.runners| == |from.runners|
  }

  lemma FollowsKeeps(from: State, s: State)
    requires Reachable(from) && Follows(from, s)
    ensures SameBeginning(from, s)
  {
    var inv := (x: State) => SameBeginning(from, x);
    forall x, x' | inv(x) && SameAwait(x, x') ensures inv(x') {
      var e :| Enabled(x, e) && !e.LoadRemaining? && x' == Apply(x, e);
      StepReachable(x, e);
    }
    Runs.FollowsInvariant(from, s, SameAwait, inv);
  }

  lemma Go(from: State, s: State, e: Event) returns (s': State)
    requires Reachable(s) && Follows(from, s) && Enabled(s, e) && !e.LoadRemaining?
    ensures Reachable(s') && Follows(from, s') && s' == Apply(s, e)
  {
    s' := Apply(s, e);
    StepReachable(s, e);
    assert SameAwait(s, s');
    Runs.FollowsStep(from, s, s', SameAwait);
  }

  /** The schedule that parks it: everybody else finishes while the parent is about to store its handle. */
  lemma LastAwait(s: State) returns (s': State)
    requires Reachable(s) && s.parent.Running? && |s.delivered| == |s.runners| && s.remaining != 0
    ensures Reachable(s') && Follows(Apply(s, LoadRemaining), s') && Stuck(s') && s'.begun == |s.runners|
  {
    ReachableInv(s);
    NothingLeftToTake(s);
    var from := Apply(s, LoadRemaining);
    StepReachable(s, LoadRemaining);
    Runs.FollowsItself(from, SameAwait);
    s' := Go(from, from, TestEmpty);
    s' := FinishRunners(from, s', 0);
    s' := FinishChecks(from, s', 0);
    s' := ParkAndRecheck(from, s');
  }

  /** When all results are delivered every runner has at least its link behind it. */
  lemma NothingLeftToTake(s: State)
    requires Inv(s) && |s.delivered| == |s.runners|
    ensures !s.queue.CanTake() && forall i :: 0 <= i < |s.runners| ==> !s.runners[i].Working? && !s.runners[i].Unlinked?
  {
    PlacedAtMost(s.runners);
    forall i | 0 <= i < |s.runners| ensures !s.runners[i].Working? && !s.runners[i].Unlinked? {
      assert s.runners[i] in s.runners;
      assert RunnerOk(s.queue, s.runners[i], i) && PlaceOk(s.queue, s.runners, s.runners[i].place);
    }
  }

  lemma {:induction false} PlacedAtMost(runners: seq<Runner>)
    ensures Total(runners, Placed) <= |runners|
    ensures Total(runners, Placed) == |runners| ==> forall r <- runners :: !r.Working?
  {
    if runners == [] {
    } else {
      PlacedAtMost(runners[1..]);
    }
  }

  lemma {:induction false} FinishRunners(from: State, s: State, i: nat) returns (s': State)
    requires Reachable(s) && Follows(from, s) && s.parent.Storing? && !s.handle && i <= |s.runners|
    requires forall j :: 0 <= j < |s.runners| ==> if j < i then s.runners[j].Finished? else !s.runners[j].Working? && !s.runners[j].Unlinked?
    ensures Reachable(s') && Follows(from, s') && s' == s.(runners := s'.runners, remaining := s'.remaining)
    ensures forall j :: 0 <= j < |s'.runners| ==> s'.runners[j].Finished?
    decreases |s.runners| - i
  {
    s' := s;
    if i < |s.runners| {
      if s'.runners[i].Linked? { s' := Go(from, s', Decrement(i)); }
      if s'.runners[i].Decremented? { s' := Go(from, s', Exchange(i)); }
      s' := FinishRunners(from, s', i + 1);
    }
  }

  lemma {:induction false} FinishChecks(from: State, s: State, a: nat) returns (s': State)
    requires Reachable(s) && Follows(from, s) && s.parent.Storing? && !s.handle && !s.queue.CanTake() && a <= |s.checks|
    requires forall b :: 0 <= b < a ==> s.checks[b].Done?
    ensures Reachable(s') && Follows(from, s') && s' == s.(checks := s'.checks)
    ensures forall b :: 0 <= b < |s'.checks| ==> s'.checks[b].Done?
    decreases |s.checks| - a
  {
    s' := s;
    if a < |s.checks| {
      if s'.checks[a].Checking? { s' := Go(from, s', RecheckHead(a)); }
      if s'.checks[a].Looking? { s' := Go(from, s', RecheckNext(a, false)); }
      if s'.checks[a].Exchanging? { s' := Go(from, s', CheckExchange(a)); }
      s' := FinishChecks(from, s', a + 1);
    }
  }

  lemma ParkAndRecheck(from: State, s: State) returns (s': State)
    requires Reachable(s) && Follows(from, s) && s.parent.Storing? && !s.queue.CanTake()
    requires forall i :: 0 <= i < |s.runners| ==> s.runners[i].Finished?
    requires forall a :: 0 <= a < |s.checks| ==> s.checks[a].Done?
    ensures Reachable(s') && Follows(from, s') && Stuck(s') && s'.begun == s.begun
  {
    ReachableInv(s);
    s' := Go(from, s, StoreHandle);
    s' := Go(from, s', RecheckHead(|s.checks|));
    s' := Go(from, s', RecheckNext(|s.checks|, false));
  }

  /** For every N > 0 there are such awaits, and schedules that park them. */
  lemma StuckAfterLastResult(n: nat, r: Outcome) returns (s: State)
    requires 0 < n
    ensures Reachable(s) && |s.runners| == n && s.begun == n && Stuck(s)
  {
    Rounds(n, n - 1, r);
    s := Do(Served(n, n - 1, r), Publish(n - 1, r));
    s := Do(s, Link(n - 1));
    s := Do(s, LoadRemaining);
    s := Do(s, TestEmpty);
    s := Do(s, Dequeue);
    var from := Apply(s, LoadRemaining);
    StepReachable(s, LoadRemaining);
    s := LastAwait(s);
    FollowsKeeps(from, s);
  }

  lemma Do(s: State, e: Event) returns (s': State)
    requires Reachable(s) && Enabled(s, e)
    ensures Reachable(s') && s' == Apply(s, e)
  {
    s' := Apply(s, e);
    StepReachable(s, e);
  }

  /** The first `i` of `n` results have been enqueued, announced and delivered one by one. */
  function Served(n: nat, i: nat, r: Outcome): State
    requires i <= n
  {
    var items := seq(i, k requires 0 <= k < i => Item(k, r));
    State(GapQueue(items, {}, i), n - i, false,
      seq(n, k requires 0 <= k < n => if k < i then Finished(k) else Working),
      [], Running, {}, items, if i == 0 then 0 else i - 1, n - i, false)
  }

  lemma {:induction false} Rounds(n: nat, i: nat, r: Outcome)
    requires i < n
    ensures Reachable(Served(n, i, r))
  {
    if i == 0 {
      assert Served(n, 0, r) == Start(n);
      Runs.InitialIsReachable(Start(n), Init, Next);
    } else {
      Rounds(n, i - 1, r);
      Round(n, i - 1, r);
    }
  }

  lemma Round(n: nat, i: nat, r: Outcome)
    requires i + 1 < n && Reachable(Served(n, i, r))
    ensures Reachable(Served(n, i + 1, r))
  {
    var s := Do(Served(n, i, r), Publish(i, r));
    s := Do(s, Link(i));
    s := Do(s, Decrement(i));
    s := Do(s, Exchange(i));
    s := Do(s, LoadRemaining);
    s := Do(s, TestEmpty);
    s := Do(s, Dequeue);
    assert s == Served(n, i + 1, r);
  }
}
