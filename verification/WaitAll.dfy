/** `wait_all`: N runners fill their slots and count down; the last one, or the parent's own
    re-check, resumes the parent. */
module WaitAll {
  import opened Counting
  import opened Handshake
  import opened Options
  import opened Outcomes
  import opened SingleAwait
  import Runs

  datatype Runner =
    | Working
    | Stored(r: Outcome)    // slot filled, about to count down
    | LastIn(r: Outcome)    // its countdown reached zero, about to exchange
    | Through(r: Outcome)

  datatype State = State(
    waitingCount: int, handle: bool, slots: seq<Option<Outcome>>,
    runners: seq<Runner>, check: Check, parent: Parent, claims: set<Agent>,
    got: seq<Option<Outcome>>,  // what await_resume returned
    fault: bool)                // the parent was resumed while it was not suspended

  datatype Event =
    | Store(i: nat, r: Outcome) | CountDown(i: nat) | Exchange(i: nat)
    | TestReady | StoreHandle | Recheck | CheckExchange | Resume(g: Agent) | Proceed

  function Start(n: nat): State {
    State(n, false, seq(n, i => None), seq(n, i => Working), NotYet, Running, {}, [], false)
  }

  ghost predicate Init(s: State) {
    exists n: nat :: s == Start(n)
  }

  predicate Enabled(s: State, e: Event) {
    match e
    case Store(i, _) => i < |s.runners| && i < |s.slots| && s.runners[i].Working?
    case CountDown(i) => i < |s.runners| && s.runners[i].Stored?
    case Exchange(i) => i < |s.runners| && s.runners[i].LastIn?
    case TestReady => s.parent.Running?
    case StoreHandle => s.parent.Storing?
    case Recheck => s.check.Checking?
    case CheckExchange => s.check.Exchanging?
    case Resume(g) => g in s.claims
    case Proceed => s.parent.Proceeding?
  }

  function Claim(s: State, g: Agent): State {
    s.(claims := if s.handle then s.claims + {g} else s.claims, handle := false)
  }

  function Apply(s: State, e: Event): State
    requires Enabled(s, e)
  {
    match e
    case Store(i, r) => s.(slots := s.slots[i := Some(r)], runners := s.runners[i := Stored(r)])
    case CountDown(i) =>
      var r := s.runners[i].r;
      s.(waitingCount := s.waitingCount - 1,
         runners := s.runners[i := if s.waitingCount == 1 then LastIn(r) else Through(r)])
    case Exchange(i) => Claim(s.(runners := s.runners[i := Through(s.runners[i].r)]), RunnerOf(i))
    case TestReady => s.(parent := if s.waitingCount == 0 then Proceeding(Ready) else Storing)
    case StoreHandle => s.(handle := true, parent := Suspended, check := Checking)
    case Recheck => s.(check := if s.waitingCount == 0 then Exchanging else Done)
    case CheckExchange => Claim(s.(check := Done), CheckOf(0))
    case Resume(g) =>
      if s.parent.Suspended? then s.(claims := s.claims - {g}, parent := Proceeding(ViaOf(g)))
      else s.(fault := true)
    case Proceed => s.(parent := Finished, got := s.slots)
  }

  ghost predicate Next(s: State, s': State) {
    exists e :: Enabled(s, e) && s' == Apply(s, e)
  }

  ghost predicate Reachable(s: State) {
    Runs.Reachable(s, Init, Next)
  }

  function Uncounted(r: Runner): int { if r.Working? || r.Stored? then 1 else 0 }

  ghost predicate SlotsOk(slots: seq<Option<Outcome>>, runners: seq<Runner>) {
    && |slots| == |runners|
    && forall i :: 0 <= i < |runners| ==> slots[i] == if runners[i].Working? then None else Some(runners[i].r)
  }

  /** The parent is let go, or about to be, only at count zero. */
  ghost predicate GateOk(s: State) {
    && (s.parent.Proceeding? || s.parent.Finished? || s.claims != {} || s.check.Exchanging? ==> s.waitingCount == 0)
    && (forall i :: 0 <= i < |s.runners| && s.runners[i].LastIn? ==> s.waitingCount == 0)
    && (s.parent.Running? || s.parent.Storing? <==> s.check.NotYet? && !s.parent.Proceeding? && !s.parent.Finished?)
    && (s.parent.Finished? ==> s.got == s.slots)
  }

  /** A parked parent still has a visitor to come. */
  ghost predicate WakeupOk(s: State) {
    s.handle ==> s.waitingCount > 0 || !s.check.Done? || exists i :: 0 <= i < |s.runners| && s.runners[i].LastIn?
  }

  ghost predicate Inv(s: State) {
    && s.waitingCount == Total(s.runners, Uncounted)
    && SlotsOk(s.slots, s.runners)
    && TokenOk(s.handle, s.claims, s.parent.Suspended?)
    && GateOk(s) && WakeupOk(s) && !s.fault
  }

  lemma {:induction false} StartTotal(n: nat)
    ensures Total(seq(n, i => Working), Uncounted) == n
  {
    if n > 0 {
      assert seq(n, i => Working)[1..] == seq(n - 1, i => Working);
      StartTotal(n - 1);
    }
  }

  lemma StepKeepsInv(s: State, e: Event)
    requires Inv(s) && Enabled(s, e)
    ensures Inv(Apply(s, e))
  {
    TotalBounds(s.runners, Uncounted);
    if e.Store? || e.CountDown? || e.Exchange? {
      TotalUpdate(s.runners, e.i, Apply(s, e).runners[e.i], Uncounted);
      if e.CountDown? {
        assert Uncounted(s.runners[e.i]) == 1;
        assert Apply(s, e).runners[e.i].LastIn? || Apply(s, e).waitingCount > 0;
      }
      if i :| 0 <= i < |s.runners| && s.runners[i].LastIn? && i != e.i {
        assert Apply(s, e).runners[i].LastIn?;
      }
    }
  }

  lemma ReachableInv(s: State)
    requires Reachable(s)
    ensures Inv(s)
  {
    forall s | Init(s) ensures Inv(s) {
      var n: nat :| s == Start(n);
      StartTotal(n);
    }
    forall s, s' | Inv(s) && Next(s, s') ensures Inv(s') {
      var e :| Enabled(s, e) && s' == Apply(s, e);
      StepKeepsInv(s, e);
    }
    Runs.ReachableInvariant(s, Init, Next, Inv);
  }

  lemma StepReachable(s: State, e: Event)
    requires Reachable(s) && Enabled(s, e)
    ensures Reachable(Apply(s, e))
  {
    assert Next(s, Apply(s, e));
    Runs.StepIsReachable(s, Apply(s, e), Init, Next);
  }

  // ---------- What every run guarantees ----------

  /** The handle is in one place and a parent is never resumed while it runs. */
  lemma SingleToken(s: State)
    requires Reachable(s)
    ensures !s.fault
    ensures (if s.handle then 1 else 0) + |s.claims| + (if s.parent.Suspended? then 0 else 1) == 1
  {
    ReachableInv(s);
    TokenCount(s.handle, s.claims, s.parent.Suspended?);
  }

  /** The parent goes on only when every slot holds its runner's outcome, and returns these. */
  lemma ProceedsAfterEveryone(s: State)
    requires Reachable(s) && (s.parent.Proceeding? || s.parent.Finished?)
    ensures |s.slots| == |s.runners|
    ensures forall i :: 0 <= i < |s.runners| ==> !s.runners[i].Working? && s.slots[i] == Some(s.runners[i].r)
    ensures s.parent.Finished? ==> s.got == s.slots
  {
    ReachableInv(s);
    TotalBounds(s.runners, Uncounted);
    forall i | 0 <= i < |s.runners| ensures !s.runners[i].Working? {
      assert Uncounted(s.runners[i]) == 0;
    }
  }

  /** What an operand gave is in its slot from then on, and in what the parent returns. */
  lemma StoredIsKept(s: State, k: nat, r: Outcome, s': State)
    requires Reachable(s) && Enabled(s, Store(k, r)) && Runs.Follows(Apply(s, Store(k, r)), s', Next)
    ensures k < |s'.slots| && s'.slots[k] == Some(r)
    ensures s'.parent.Finished? ==> s'.got == s'.slots && s'.got[k] == Some(r)
  {
    ReachableInv(s);
    StepKeepsInv(s, Store(k, r));
    var inv := (x: State) => Inv(x) && k < |x.runners| && !x.runners[k].Working? && x.runners[k].r == r;
    forall x, x' | inv(x) && Next(x, x') ensures inv(x') {
      var e :| Enabled(x, e) && x' == Apply(x, e);
      StepKeepsInv(x, e);
    }
    Runs.FollowsInvariant(Apply(s, Store(k, r)), s', Next, inv);
  }

  /** The protocol halts exactly when the parent has returned and every thread is through:
      no state with all runners done and the re-check done leaves the parent parked. */
  lemma HaltsOnlyFinished(s: State, r: Outcome)
    requires Reachable(s)
    ensures (forall e :: !Enabled(s, e)) <==>
      && s.parent.Finished? && !s.check.Checking? && !s.check.Exchanging?
      && forall i :: 0 <= i < |s.runners| ==> s.runners[i].Through?
  {
    ReachableInv(s);
    if forall e :: !Enabled(s, e) {
      forall i | 0 <= i < |s.runners| ensures s.runners[i].Through? {
        assert !Enabled(s, Store(i, r)) && !Enabled(s, CountDown(i)) && !Enabled(s, Exchange(i));
      }
      AllThrough(s.runners);
      assert !Enabled(s, TestReady) && !Enabled(s, StoreHandle) && !Enabled(s, Recheck);
      assert !Enabled(s, CheckExchange) && !Enabled(s, Proceed);
      forall g ensures g !in s.claims { assert !Enabled(s, Resume(g)); }
    }
  }

  lemma {:induction false} AllThrough(runners: seq<Runner>)
    requires forall r <- runners :: r.Through?
    ensures Total(runners, Uncounted) == 0
  {
    if runners != [] {
      assert runners[0] in runners;
      AllThrough(runners[1..]);
    }
  }

  // ---------- Can await_suspend outlive its await? ----------

  /** `await_suspend` has accesses of the awaitable left to make although the coroutine has gone on,
      and may have destroyed the awaitable. */
  ghost predicate Late(s: State) {
    (s.check.Checking? || s.check.Exchanging?) && !s.parent.Suspended?
  }

  /** Some runner has not reached its end: it, or the last of them, will visit the cell. */
  ghost predicate OthersCanWake(s: State) {
    exists i :: 0 <= i < |s.runners| && !s.runners[i].Through?
  }

  /** Until the call is over the handle stays in the cell and no other thread can take it. */
  ghost predicate OnlySuspender(s: State) {
    && TokenOk(s.handle, s.claims, s.parent.Suspended?) && !OthersCanWake(s)
    && !s.parent.Running? && !s.parent.Storing?
    && (s.check.Checking? || s.check.Exchanging? ==> s.parent.Suspended? && s.handle)
  }

  lemma OnlySuspenderStep(s: State, e: Event)
    requires OnlySuspender(s) && Enabled(s, e)
    ensures OnlySuspender(Apply(s, e))
  {
  }

  lemma NobodyElseWakes(from: State, s: State)
    requires OnlySuspender(from) && Runs.Follows(from, s, Next)
    ensures !Late(s)
  {
    forall x, x' | OnlySuspender(x) && Next(x, x') ensures OnlySuspender(x') {
      var e :| Enabled(x, e) && x' == Apply(x, e);
      OnlySuspenderStep(x, e);
    }
    Runs.FollowsInvariant(from, s, Next, OnlySuspender);
  }

  lemma Go(from: State, s: State, e: Event) returns (s': State)
    requires Runs.Follows(from, s, Next) && Inv(s) && Enabled(s, e)
    ensures Runs.Follows(from, s', Next) && Inv(s') && s' == Apply(s, e)
  {
    s' := Apply(s, e);
    StepKeepsInv(s, e);
    assert Next(s, s');
    Runs.FollowsStep(from, s, s', Next);
  }

  /** The call that stores the handle now can outlive the await exactly if some runner is not through. */
  lemma CanBeLateIff(s: State, r: Outcome)
    requires Reachable(s) && s.parent.Storing?
    ensures (exists s' :: Runs.Follows(Apply(s, StoreHandle), s', Next) && Late(s')) <==> OthersCanWake(s)
  {
    ReachableInv(s);
    StepKeepsInv(s, StoreHandle);
    var from := Apply(s, StoreHandle);
    Runs.FollowsItself(from, Next);
    if OthersCanWake(s) {
      var s' := LastRunnerClaims(from, from, 0, r);
      var g :| g in s'.claims;
      s' := Go(from, s', Resume(g));
      assert Late(s');
    } else if s' :| Runs.Follows(from, s', Next) && Late(s') {
      NobodyElseWakes(from, s');
    }
  }

  /** The runners come to their end one after the other, and the last one takes the handle. */
  lemma {:induction false} LastRunnerClaims(from: State, s: State, i: nat, r: Outcome) returns (s': State)
    requires Inv(s) && Runs.Follows(from, s, Next) && s.parent.Suspended? && s.handle && s.check.Checking?
    requires forall j :: 0 <= j < i && j < |s.runners| ==> s.runners[j].Through?
    requires exists j :: i <= j < |s.runners| && !s.runners[j].Through?
    ensures Inv(s') && Runs.Follows(from, s', Next) && s'.claims != {} && s'.parent.Suspended? && s'.check.Checking?
    decreases |s.runners| - i
  {
    s' := s;
    if s'.runners[i].Working? { s' := Go(from, s', Store(i, r)); }
    if s'.runners[i].Stored? { s' := Go(from, s', CountDown(i)); }
    if s'.runners[i].LastIn? {
      s' := Go(from, s', Exchange(i));
      assert RunnerOf(i) in s'.claims;
    } else {
      TotalBounds(s'.runners, Uncounted);
      StillToCome(s, s', i);
      s' := LastRunnerClaims(from, s', i + 1, r);
    }
  }

  /** Runner `i` was not the last one, or was through from the start. */
  lemma StillToCome(s: State, s': State, i: nat)
    requires Inv(s') && i < |s'.runners| == |s.runners| && (forall j :: 0 <= j <= i ==> s'.runners[j].Through?)
    requires exists j :: i <= j < |s.runners| && !s.runners[j].Through?
    requires if s.runners[i].Through? then s' == s else s'.waitingCount > 0
    ensures exists j :: i + 1 <= j < |s'.runners| && !s'.runners[j].Through?
  {
    if s.runners[i].Through? {
      var j :| i <= j < |s.runners| && !s.runners[j].Through?;
      assert !s'.runners[j].Through?;
    } else {
      TotalWitness(s'.runners, Uncounted);
      var j :| 0 <= j < |s'.runners| && Uncounted(s'.runners[j]) > 0;
      assert !s'.runners[j].Through?;
    }
  }

  // ---------- The shared state as an object, one method per atomic access ----------

  class WaitAllAwaitable {
    var waitingCount: int
    var coroutineAddr: bool  // the cell holds the parent's handle
    var result: seq<Option<Outcome>>
    var runners: seq<Runner>
    var check: Check
    var parent: Parent
    var claims: set<Agent>
    ghost var got: seq<Option<Outcome>>

    ghost function View(): State
      reads this
    {
      State(waitingCount, coroutineAddr, result, runners, check, parent, claims, got, false)
    }

    ghost predicate Valid()
      reads this
    {
      Reachable(View())
    }

    constructor (n: nat)
      ensures Valid() && View() == Start(n)
      ensures waitingCount == |runners| == |result| == n && !coroutineAddr && forall i :: 0 <= i < n ==> result[i] == None
    {
      waitingCount, coroutineAddr, result := n, false, seq(n, i => None);
      runners, check, parent, claims, got := seq(n, i => Working), NotYet, Running, {}, [];
      new;
      assert View() == Start(n);
      Runs.InitialIsReachable(View(), Init, Next);
    }

    /** `emplace` or `emplace_error`, according to what the operand gave. */
    method StoreResult(i: nat, r: Outcome)
      requires Valid() && Enabled(View(), Store(i, r))
      modifies this
      ensures Valid() && View() == Apply(old(View()), Store(i, r))
      ensures var s := old(View()); View() == s.(slots := s.slots[i := Some(r)], runners := s.runners[i := Stored(r)])
    {
      StepReachable(View(), Store(i, r));
      result, runners := result[i := Some(r)], runners[i := Stored(r)];
    }

    method FetchSubWaiting(i: nat) returns (last: bool)
      requires Valid() && Enabled(View(), CountDown(i))
      modifies this
      ensures Valid() && View() == Apply(old(View()), CountDown(i))
      ensures last <==> waitingCount == 0
      ensures var s := old(View()); var r := s.runners[i].r;
        View() == s.(waitingCount := s.waitingCount - 1, runners := s.runners[i := if last then LastIn(r) else Through(r)])
    {
      StepReachable(View(), CountDown(i));
      var r := runners[i].r;
      last := waitingCount == 1;
      waitingCount := waitingCount - 1;
      runners := runners[i := if last then LastIn(r) else Through(r)];
    }

    method RunnerExchange(i: nat) returns (claimed: bool)
      requires Valid() && Enabled(View(), Exchange(i))
      modifies this
      ensures Valid() && View() == Apply(old(View()), Exchange(i))
      ensures claimed == old(coroutineAddr)
      ensures var s := old(View()); View() == s.(handle := false, runners := s.runners[i := Through(s.runners[i].r)],
        claims := if claimed then s.claims + {RunnerOf(i)} else s.claims)
    {
      StepReachable(View(), Exchange(i));
      runners := runners[i := Through(runners[i].r)];
      claimed, coroutineAddr := coroutineAddr, false;
      if claimed { claims := claims + {RunnerOf(i)}; }
    }

    method AwaitReady() returns (ready: bool)
      requires Valid() && parent.Running?
      modifies this
      ensures Valid() && View() == Apply(old(View()), TestReady)
      ensures ready == parent.Proceeding?
      ensures ready == (waitingCount == 0)
      ensures var s := old(View()); View() == s.(parent := if ready then Proceeding(Ready) else Storing)
    {
      StepReachable(View(), TestReady);
      ready := waitingCount == 0;
      parent := if ready then Proceeding(Ready) else Storing;
    }

    method StoreCoroutineAddr()
      requires Valid() && parent.Storing?
      modifies this
      ensures Valid() && View() == Apply(old(View()), StoreHandle)
      ensures var s := old(View()); View() == s.(handle := true, parent := Suspended, check := Checking)
    {
      StepReachable(View(), StoreHandle);
      coroutineAddr, parent, check := true, Suspended, Checking;
    }

    method RecheckCount()
      requires Valid() && check.Checking?
      modifies this
      ensures Valid() && View() == Apply(old(View()), Recheck)
      ensures var s := old(View()); View() == s.(check := if s.waitingCount == 0 then Exchanging else Done)
    {
      StepReachable(View(), Recheck);
      check := if waitingCount == 0 then Exchanging else Done;
    }

    method SuspenderExchange() returns (claimed: bool)
      requires Valid() && check.Exchanging?
      modifies this
      ensures Valid() && View() == Apply(old(View()), CheckExchange)
      ensures claimed == old(coroutineAddr)
      ensures var s := old(View()); View() == s.(handle := false, check := Done, claims := if claimed then s.claims + {CheckOf(0)} else s.claims)
    {
      StepReachable(View(), CheckExchange);
      check := Done;
      claimed, coroutineAddr := coroutineAddr, false;
      if claimed { claims := claims + {CheckOf(0)}; }
    }

    /** The claimant calls `resume`; the parent is suspended whenever this happens. */
    method ResumeParent(g: Agent)
      requires Valid() && g in claims
      modifies this
      ensures Valid() && old(parent).Suspended? && View() == Apply(old(View()), Resume(g))
      ensures var s := old(View()); View() == s.(claims := s.claims - {g}, parent := Proceeding(if g.RunnerOf? then ByRunner else BySuspender))
    {
      ReachableInv(View());
      StepReachable(View(), Resume(g));
      claims, parent := claims - {g}, Proceeding(ViaOf(g));
    }

    method AwaitResume() returns (r: seq<Option<Outcome>>)
      requires Valid() && parent.Proceeding?
      modifies this
      ensures Valid() && View() == Apply(old(View()), Proceed)
      ensures r == got && |r| == |runners| && forall x :: x in r ==> x.Some?
      ensures r == result
      ensures var s := old(View()); View() == s.(parent := Finished, got := s.slots)
    {
      ProceedsAfterEveryone(View());
      StepReachable(View(), Proceed);
      parent, got, r := Finished, result, result;
    }
  }
}
