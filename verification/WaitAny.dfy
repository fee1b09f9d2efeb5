/** `wait_any`: N runners compete for `ready_index`; the winner stores its result and resumes
    the parent, unless the parent saw the index itself. */
module WaitAny {
  import opened Handshake
  import opened Options
  import opened Outcomes
  import opened SingleAwait
  import Runs

  datatype Runner =
    | Working
    | Got(r: Outcome)      // about to CAS ready_index
    | Won(r: Outcome)      // about to store its result
    | Emplaced(r: Outcome) // about to exchange the handle cell
    | Through(r: Outcome)  // the winner, done
    | Lost

  datatype Answer = Answer(index: int, result: Option<Outcome>)

  datatype State = State(
    readyIndex: int, handle: bool, result: Option<Outcome>,
    runners: seq<Runner>, check: Check, parent: Parent, claims: set<Agent>,
    got: Option<Answer>,  // what await_resume returned
    via: Option<Via>,     // who let the parent go on
    fault: bool)          // the parent was resumed while it was not suspended

  datatype Event =
    | Finish(i: nat, r: Outcome) | Compete(i: nat) | Emplace(i: nat) | Exchange(i: nat)
    | TestReady | StoreHandle | Recheck | CheckExchange | Resume(g: Agent) | Proceed

  function Start(n: nat): State {
    State(-1, false, None, seq(n, i => Working), NotYet, Running, {}, None, None, false)
  }

  ghost predicate Init(s: State) {
    exists n: nat :: s == Start(n)
  }

  predicate Enabled(s: State, e: Event) {
    match e
    case Finish(i, _) => i < |s.runners| && s.runners[i].Working?
    case Compete(i) => i < |s.runners| && s.runners[i].Got?
    case Emplace(i) => i < |s.runners| && s.runners[i].Won?
    case Exchange(i) => i < |s.runners| && s.runners[i].Emplaced?
    case TestReady => s.parent.Running?
    case StoreHandle => s.parent.Storing?
    case Recheck => s.check.Checking?
    case CheckExchange => s.check.Exchanging?
    case Resume(g) => g in s.claims
    case Proceed => s.parent.Proceeding?
  }

  function Claim(s: State, g: Agent): State {
    s.(claims := if s.handle then s.claims + {g} else s.claims, handle := false)
  }

  function Apply(s: State, e: Event): State
    requires Enabled(s, e)
  {
    match e
    case Finish(i, r) => s.(runners := s.runners[i := Got(r)])
    case Compete(i) =>
      if s.readyIndex == -1 then s.(readyIndex := i, runners := s.runners[i := Won(s.runners[i].r)])
      else s.(runners := s.runners[i := Lost])
    case Emplace(i) => s.(result := Some(s.runners[i].r), runners := s.runners[i := Emplaced(s.runners[i].r)])
    case Exchange(i) => Claim(s.(runners := s.runners[i := Through(s.runners[i].r)]), RunnerOf(i))
    case TestReady => s.(parent := if s.readyIndex >= 0 then Proceeding(Ready) else Storing)
    case StoreHandle => s.(handle := true, parent := Suspended, check := Checking)
    case Recheck => s.(check := if s.readyIndex >= 0 then Exchanging else Done)
    case CheckExchange => Claim(s.(check := Done), CheckOf(0))
    case Resume(g) =>
      if s.parent.Suspended? then s.(claims := s.claims - {g}, parent := Proceeding(ViaOf(g)))
      else s.(fault := true)
    case Proceed =>
      s.(parent := Finished, via := Some(s.parent.via), got := Some(Answer(s.readyIndex, s.result)))
  }

  ghost predicate Next(s: State, s': State) {
    exists e :: Enabled(s, e) && s' == Apply(s, e)
  }

  ghost predicate IsRun(b: seq<State>) {
    Runs.IsRun(b, Init, Next)
  }

  ghost predicate Reachable(s: State) {
    Runs.Reachable(s, Init, Next)
  }

  predicate Victor(r: Runner) {
    r.Won? || r.Emplaced? || r.Through?
  }

  /** The index names the one runner past a successful CAS; nobody has lost before somebody won. */
  ghost predicate IndexOk(index: int, runners: seq<Runner>) {
    && -1 <= index < |runners|
    && (forall i :: 0 <= i < |runners| ==> (Victor(runners[i]) <==> i == index))
    && (forall i :: 0 <= i < |runners| && runners[i].Lost? ==> index >= 0)
  }

  /** The result is the winner's and appears when the winner stores it. */
  ghost predicate ResultOk(index: int, result: Option<Outcome>, runners: seq<Runner>) {
    if 0 <= index < |runners| && Victor(runners[index]) && !runners[index].Won?
    then result == Some(runners[index].r) else result == None
  }

  ghost predicate GateOk(s: State) {
    && (s.parent.Proceeding? || s.parent.Finished? || s.claims != {} || s.check.Exchanging? ==> s.readyIndex >= 0)
    && (s.parent.Running? || s.parent.Storing? <==> s.check.NotYet? && !s.parent.Proceeding? && !s.parent.Finished?)
    && (forall g :: g in s.claims && g.RunnerOf? ==> g.i == s.readyIndex && g.i < |s.runners| && s.runners[g.i].Through?)
    && (s.parent == Proceeding(ByRunner) ==> s.result.Some?)
    && (s.parent.Finished? <==> s.got.Some?) && (s.got.Some? <==> s.via.Some?)
    && (s.got.Some? ==> s.got.value.index == s.readyIndex && (s.got.value.result.Some? ==> s.got.value.result == s.result))
    && (s.via == Some(ByRunner) && s.got.Some? ==> s.got.value.result.Some?)
  }

  /** A parked parent still has a visitor to come. */
  ghost predicate WakeupOk(s: State) {
    s.handle ==> s.readyIndex == -1 || !s.check.Done?
                 || (0 <= s.readyIndex < |s.runners| && !s.runners[s.readyIndex].Through?)
  }

  ghost predicate Inv(s: State) {
    && IndexOk(s.readyIndex, s.runners)
    && ResultOk(s.readyIndex, s.result, s.runners)
    && TokenOk(s.handle, s.claims, s.parent.Suspended?)
    && GateOk(s) && WakeupOk(s) && !s.fault
  }

  lemma StepKeepsInv(s: State, e: Event)
    requires Inv(s) && Enabled(s, e)
    ensures Inv(Apply(s, e))
  {
    IndexKeeps(s, e);
    TokenKeeps(s, e);
    GateKeeps(s, e);
    WakeupKeeps(s, e);
  }

  lemma IndexKeeps(s: State, e: Event)
    requires IndexOk(s.readyIndex, s.runners) && ResultOk(s.readyIndex, s.result, s.runners) && Enabled(s, e)
    ensures var s' := Apply(s, e); IndexOk(s'.readyIndex, s'.runners) && ResultOk(s'.readyIndex, s'.result, s'.runners)
  {
  }

  lemma TokenKeeps(s: State, e: Event)
    requires TokenOk(s.handle, s.claims, s.parent.Suspended?) && !s.fault && Enabled(s, e)
    ensures TokenOk(Apply(s, e).handle, Apply(s, e).claims, Apply(s, e).parent.Suspended?) && !Apply(s, e).fault
  {
  }

  lemma GateKeeps(s: State, e: Event)
    requires Inv(s) && Enabled(s, e)
    ensures GateOk(Apply(s, e))
  {
  }

  lemma WakeupKeeps(s: State, e: Event)
    requires IndexOk(s.readyIndex, s.runners) && WakeupOk(s) && GateOk(s) && Enabled(s, e)
    ensures WakeupOk(Apply(s, e))
  {
  }

  lemma InvIsInductive()
    ensures Runs.Inductive(Init, Next, Inv)
  {
    forall s, s' | Inv(s) && Next(s, s') ensures Inv(s') {
      var e :| Enabled(s, e) && s' == Apply(s, e);
      StepKeepsInv(s, e);
    }
  }

  lemma ReachableInv(s: State)
    requires Reachable(s)
    ensures Inv(s)
  {
    InvIsInductive();
    Runs.ReachableInvariant(s, Init, Next, Inv);
  }

  lemma StepReachable(s: State, e: Event)
    requires Reachable(s) && Enabled(s, e)
    ensures Reachable(Apply(s, e))
  {
    assert Next(s, Apply(s, e));
    Runs.StepIsReachable(s, Apply(s, e), Init, Next);
  }

  // ---------- What every run guarantees ----------

  /** The handle is in one place and a parent is never resumed while it runs. */
  lemma SingleToken(s: State)
    requires Reachable(s)
    ensures !s.fault
    ensures (if s.handle then 1 else 0) + |s.claims| + (if s.parent.Suspended? then 0 else 1) == 1
  {
    ReachableInv(s);
    TokenCount(s.handle, s.claims, s.parent.Suspended?);
  }

  ghost predicate IndexKept(s: State, s': State) {
    (s.readyIndex >= 0 ==> s'.readyIndex == s.readyIndex) && (s.got.Some? ==> s'.got == s.got)
  }

  /** Along a run the index changes at most once, and the parent returns at most once. */
  lemma WinnerIsFinal(b: seq<State>, i: nat, j: nat)
    requires IsRun(b) && i <= j < |b|
    ensures IndexKept(b[i], b[j])
  {
    InvIsInductive();
    forall s, s' | Inv(s) && Next(s, s') ensures IndexKept(s, s') {
      var e :| Enabled(s, e) && s' == Apply(s, e);
    }
    Runs.Monotone(b, Init, Next, Inv, IndexKept, i, j);
  }

  /** Only the runner the index names gets past its CAS, hence to the exchange; the parent goes on
      only when there is a winner, and returns the winner's index. */
  lemma OneWinner(s: State, i: nat)
    requires Reachable(s) && i < |s.runners|
    ensures Victor(s.runners[i]) <==> s.readyIndex == i
    ensures s.parent.Proceeding? || s.parent.Finished? ==> 0 <= s.readyIndex < |s.runners|
    ensures s.parent.Finished? ==> s.got.Some? && s.got.value.index == s.readyIndex
  {
    ReachableInv(s);
  }

  /** The result the parent returns is the winner's or missing; it is never missing when the
      winner itself resumed the parent. */
  lemma ResultOfWinner(s: State)
    requires Reachable(s) && s.got.Some?
    ensures 0 <= s.readyIndex < |s.runners| && Victor(s.runners[s.readyIndex])
    ensures s.got.value.result.Some? ==> s.got.value.result.value == s.runners[s.readyIndex].r
    ensures s.via == Some(ByRunner) ==> s.got.value.result.Some?
  {
    ReachableInv(s);
  }

  /** What an operand gave is what a parent that returns its index gets, if it gets a result. */
  lemma OutcomeIsKept(s: State, i: nat, r: Outcome, s': State)
    requires Reachable(s) && Enabled(s, Finish(i, r)) && Runs.Follows(Apply(s, Finish(i, r)), s', Next)
    ensures s'.readyIndex == i && s'.result.Some? ==> s'.result == Some(r)
    ensures s'.got.Some? && s'.got.value.index == i && s'.got.value.result.Some? ==> s'.got == Some(Answer(i, Some(r)))
  {
    ReachableInv(s);
    StepKeepsInv(s, Finish(i, r));
    var inv := (x: State) => Inv(x) && KeepsOutcome(x, i, r);
    forall x, x' | inv(x) && Next(x, x') ensures inv(x') {
      var e :| Enabled(x, e) && x' == Apply(x, e);
      StepKeepsInv(x, e);
      KeepsOutcomeStep(x, e, i, r);
    }
    Runs.FollowsInvariant(Apply(s, Finish(i, r)), s', Next, inv);
  }

  predicate KeepsOutcome(s: State, i: nat, r: Outcome) {
    i < |s.runners| && !s.runners[i].Working? && (!s.runners[i].Lost? ==> s.runners[i].r == r)
  }

  lemma KeepsOutcomeStep(s: State, e: Event, i: nat, r: Outcome)
    requires KeepsOutcome(s, i, r) && Enabled(s, e)
    ensures KeepsOutcome(Apply(s, e), i, r)
  {
  }

  /** At the moment the parent returns its result is there exactly when the winner has stored it. */
  lemma ResultIsThereIff(s: State)
    requires Reachable(s) && s.parent.Proceeding?
    ensures 0 <= s.readyIndex < |s.runners|
    ensures Apply(s, Proceed).got.value.result.Some? <==> !s.runners[s.readyIndex].Won?
  {
    ReachableInv(s);
  }

  /** Some run over `n` operands ends with the parent let go by `v` and returning winner `w`'s index
      without a result. */
  ghost predicate ReturnsWithout(s: State, n: nat, w: nat, v: Via) {
    Reachable(s) && |s.runners| == n && s.via == Some(v) && s.got == Some(Answer(w, None))
  }

  /** The index is published before the result. For any number of operands and whichever of them
      wins, a parent that saw the index itself, in await_ready or in its re-check, may return without
      a result; a parent that the winner resumed never does. */
  lemma ResultMissingIff(n: nat, w: nat, v: Via, r: Outcome)
    requires w < n
    ensures (exists s :: ReturnsWithout(s, n, w, v)) <==> v != ByRunner
  {
    match v
    case Ready =>
      var s := ReadyBeforeResult(n, w, r);
      assert ReturnsWithout(s, n, w, v);
    case BySuspender =>
      var s := RecheckedBeforeResult(n, w, r);
      assert ReturnsWithout(s, n, w, v);
    case ByRunner =>
      if s :| ReturnsWithout(s, n, w, v) { ReachableInv(s); }
  }

  lemma ReadyBeforeResult(n: nat, w: nat, r: Outcome) returns (s: State)
    requires w < n
    ensures ReturnsWithout(s, n, w, Ready)
  {
    Runs.InitialIsReachable(Start(n), Init, Next);
    s := Do(Start(n), Finish(w, r));
    s := Do(s, Compete(w));
    s := Do(s, TestReady);
    s := Do(s, Proceed);
  }

  lemma RecheckedBeforeResult(n: nat, w: nat, r: Outcome) returns (s: State)
    requires w < n
    ensures ReturnsWithout(s, n, w, BySuspender)
  {
    Runs.InitialIsReachable(Start(n), Init, Next);
    s := Do(Start(n), TestReady);
    s := Do(s, StoreHandle);
    s := Do(s, Finish(w, r));
    s := Do(s, Compete(w));
    s := Do(s, Recheck);
    s := Do(s, CheckExchange);
    s := Do(s, Resume(CheckOf(0)));
    s := Do(s, Proceed);
  }

  lemma Do(s: State, e: Event) returns (s': State)
    requires Reachable(s) && Enabled(s, e)
    ensures Reachable(s') && s' == Apply(s, e)
  {
    s' := Apply(s, e);
    StepReachable(s, e);
  }

  /** Nothing more can happen. */
  ghost predicate Halted(s: State) {
    && (s.parent.Finished? || (s.parent.Suspended? && s.claims == {}))
    && !s.check.Checking? && !s.check.Exchanging?
    && forall i :: 0 <= i < |s.runners| ==> s.runners[i].Through? || s.runners[i].Lost?
  }

  lemma HaltedIff(s: State, r: Outcome)
    requires Reachable(s)
    ensures Halted(s) <==> forall e :: !Enabled(s, e)
  {
    ReachableInv(s);
    if forall e :: !Enabled(s, e) {
      forall i | 0 <= i < |s.runners| ensures s.runners[i].Through? || s.runners[i].Lost? {
        assert !Enabled(s, Finish(i, r)) && !Enabled(s, Compete(i)) && !Enabled(s, Emplace(i)) && !Enabled(s, Exchange(i));
      }
      assert !Enabled(s, TestReady) && !Enabled(s, StoreHandle) && !Enabled(s, Recheck);
      assert !Enabled(s, CheckExchange) && !Enabled(s, Proceed);
      forall g ensures g !in s.claims { assert !Enabled(s, Resume(g)); }
    }
  }

  /** When everything is over the parent has returned, unless there was nothing to wait for:
      with at least one operand no wake-up is lost, with none the parent is parked for ever. */
  lemma NeverLeftParked(s: State)
    requires Reachable(s) && Halted(s)
    ensures s.parent.Finished? <==> |s.runners| > 0
  {
    ReachableInv(s);
    if |s.runners| > 0 {
      assert s.runners[0].Through? || s.runners[0].Lost?;
    }
  }

  // ---------- Can await_suspend outlive its await? ----------

  /** `await_suspend` has accesses of the awaitable left to make although the coroutine has gone on,
      and may have destroyed the awaitable. */
  ghost predicate Late(s: State) {
    (s.check.Checking? || s.check.Exchanging?) && !s.parent.Suspended?
  }

  /** Some runner is, or can still become, the winner and has not visited the cell. */
  ghost predicate OthersCanWake(s: State) {
    |s.runners| > 0 && !(0 <= s.readyIndex < |s.runners| && s.runners[s.readyIndex].Through?)
  }

  /** Until the call is over the handle stays in the cell and no other thread can take it. */
  ghost predicate OnlySuspender(s: State) {
    && TokenOk(s.handle, s.claims, s.parent.Suspended?) && !OthersCanWake(s) && IndexOk(s.readyIndex, s.runners)
    && !s.parent.Running? && !s.parent.Storing?
    && (s.check.Checking? || s.check.Exchanging? ==> s.parent.Suspended? && s.handle)
  }

  lemma OnlySuspenderStep(s: State, e: Event)
    requires OnlySuspender(s) && Enabled(s, e)
    ensures OnlySuspender(Apply(s, e))
  {
  }

  lemma NobodyElseWakes(from: State, s: State)
    requires OnlySuspender(from) && Runs.Follows(from, s, Next)
    ensures !Late(s)
  {
    forall x, x' | OnlySuspender(x) && Next(x, x') ensures OnlySuspender(x') {
      var e :| Enabled(x, e) && x' == Apply(x, e);
      OnlySuspenderStep(x, e);
    }
    Runs.FollowsInvariant(from, s, Next, OnlySuspender);
  }

  lemma Go(from: State, s: State, e: Event) returns (s': State)
    requires Runs.Follows(from, s, Next) && Inv(s) && Enabled(s, e)
    ensures Runs.Follows(from, s', Next) && Inv(s') && s' == Apply(s, e)
  {
    s' := Apply(s, e);
    StepKeepsInv(s, e);
    assert Next(s, s');
    Runs.FollowsStep(from, s, s', Next);
  }

  /** The call that stores the handle now can outlive the await exactly if there is a runner and no
      winner is through. */
  lemma CanBeLateIff(s: State, r: Outcome)
    requires Reachable(s) && s.parent.Storing?
    ensures (exists s' :: Runs.Follows(Apply(s, StoreHandle), s', Next) && Late(s')) <==> OthersCanWake(s)
  {
    ReachableInv(s);
    StepKeepsInv(s, StoreHandle);
    var from := Apply(s, StoreHandle);
    Runs.FollowsItself(from, Next);
    if OthersCanWake(s) {
      var s' := WinnerClaims(from, r);
      assert Late(s');
    } else if s' :| Runs.Follows(from, s', Next) && Late(s') {
      NobodyElseWakes(from, s');
    }
  }

  lemma WinnerClaims(from: State, r: Outcome) returns (s': State)
    requires Inv(from) && from.parent.Suspended? && from.handle && from.check.Checking? && OthersCanWake(from)
    ensures Runs.Follows(from, s', Next) && s'.check.Checking? && !s'.parent.Suspended?
  {
    Runs.FollowsItself(from, Next);
    s' := from;
    var w: nat := if s'.readyIndex == -1 then 0 else s'.readyIndex;
    if s'.runners[w].Working? { s' := Go(from, s', Finish(w, r)); }
    if s'.runners[w].Got? { s' := Go(from, s', Compete(w)); }
    if s'.runners[w].Won? { s' := Go(from, s', Emplace(w)); }
    s' := Go(from, s', Exchange(w));
    s' := Go(from, s', Resume(RunnerOf(w)));
  }

  // ---------- The shared state as an object, one method per atomic access ----------

  class WaitAnyAwaitable {
    var readyIndex: int
    var coroutineAddr: bool  // the cell holds the parent's handle
    var result: Option<Outcome>
    var runners: seq<Runner>
    var check: Check
    var parent: Parent
    var claims: set<Agent>
    ghost var got: Option<Answer>
    ghost var via: Option<Via>

    ghost function View(): State
      reads this
    {
      State(readyIndex, coroutineAddr, result, runners, check, parent, claims, got, via, false)
    }

    ghost predicate Valid()
      reads this
    {
      Reachable(View())
    }

    constructor (n: nat)
      ensures Valid() && View() == Start(n)
      ensures readyIndex == -1 && result == None && |runners| == n && !coroutineAddr
    {
      readyIndex, coroutineAddr, result := -1, false, None;
      runners, check, parent, claims := seq(n, i => Working), NotYet, Running, {};
      got, via := None, None;
      new;
      assert View() == Start(n);
      Runs.InitialIsReachable(View(), Init, Next);
    }

    method AwaitOperand(i: nat, r: Outcome)
      requires Valid() && Enabled(View(), Finish(i, r))
      modifies this
      ensures Valid() && View() == Apply(old(View()), Finish(i, r))
      ensures var s := old(View()); View() == s.(runners := s.runners[i := Got(r)])
    {
      StepReachable(View(), Finish(i, r));
      runners := runners[i := Got(r)];
    }

    /** `compare_exchange_strong(-1, i)` on the index: true for exactly one runner. */
    method CompareExchangeIndex(i: nat) returns (won: bool)
      requires Valid() && Enabled(View(), Compete(i))
      modifies this
      ensures Valid() && View() == Apply(old(View()), Compete(i))
      ensures won == (old(readyIndex) == -1) && (won <==> readyIndex == i)
      ensures var s := old(View()); var r := s.runners[i].r;
        View() == if won then s.(readyIndex := i, runners := s.runners[i := Won(r)]) else s.(runners := s.runners[i := Lost])
    {
      OneWinner(View(), i);
      StepReachable(View(), Compete(i));
      won := readyIndex == -1;
      if won {
        readyIndex := i;
        runners := runners[i := Won(runners[i].r)];
      } else {
        runners := runners[i := Lost];
      }
    }

    method EmplaceResult(i: nat)
      requires Valid() && Enabled(View(), Emplace(i))
      modifies this
      ensures Valid() && View() == Apply(old(View()), Emplace(i))
      ensures var s := old(View()); View() == s.(result := Some(s.runners[i].r), runners := s.runners[i := Emplaced(s.runners[i].r)])
    {
      StepReachable(View(), Emplace(i));
      result := Some(runners[i].r);
      runners := runners[i := Emplaced(runners[i].r)];
    }

    method RunnerExchange(i: nat) returns (claimed: bool)
      requires Valid() && Enabled(View(), Exchange(i))
      modifies this
      ensures Valid() && View() == Apply(old(View()), Exchange(i))
      ensures claimed == old(coroutineAddr)
      ensures var s := old(View()); View() == s.(handle := false, runners := s.runners[i := Through(s.runners[i].r)],
        claims := if claimed then s.claims + {RunnerOf(i)} else s.claims)
    {
      StepReachable(View(), Exchange(i));
      runners := runners[i := Through(runners[i].r)];
      claimed, coroutineAddr := coroutineAddr, false;
      if claimed { claims := claims + {RunnerOf(i)}; }
    }

    method AwaitReady() returns (ready: bool)
      requires Valid() && parent.Running?
      modifies this
      ensures Valid() && View() == Apply(old(View()), TestReady)
      ensures ready == parent.Proceeding?
      ensures ready == (readyIndex >= 0)
      ensures var s := old(View()); View() == s.(parent := if ready then Proceeding(Ready) else Storing)
    {
      StepReachable(View(), TestReady);
      ready := readyIndex >= 0;
      parent := if ready then Proceeding(Ready) else Storing;
    }

    method StoreCoroutineAddr()
      requires Valid() && parent.Storing?
      modifies this
      ensures Valid() && View() == Apply(old(View()), StoreHandle)
      ensures var s := old(View()); View() == s.(handle := true, parent := Suspended, check := Checking)
    {
      StepReachable(View(), StoreHandle);
      coroutineAddr, parent, check := true, Suspended, Checking;
    }

    method RecheckIndex()
      requires Valid() && check.Checking?
      modifies this
      ensures Valid() && View() == Apply(old(View()), Recheck)
      ensures var s := old(View()); View() == s.(check := if s.readyIndex >= 0 then Exchanging else Done)
    {
      StepReachable(View(), Recheck);
      check := if readyIndex >= 0 then Exchanging else Done;
    }

    method SuspenderExchange() returns (claimed: bool)
      requires Valid() && check.Exchanging?
      modifies this
      ensures Valid() && View() == Apply(old(View()), CheckExchange)
      ensures claimed == old(coroutineAddr)
      ensures var s := old(View()); View() == s.(handle := false, check := Done, claims := if claimed then s.claims + {CheckOf(0)} else s.claims)
    {
      StepReachable(View(), CheckExchange);
      check := Done;
      claimed, coroutineAddr := coroutineAddr, false;
      if claimed { claims := claims + {CheckOf(0)}; }
    }

    /** The claimant calls `resume`; the parent is suspended whenever this happens. */
    method ResumeParent(g: Agent)
      requires Valid() && g in claims
      modifies this
      ensures Valid() && old(parent).Suspended? && View() == Apply(old(View()), Resume(g))
      ensures var s := old(View()); View() == s.(claims := s.claims - {g}, parent := Proceeding(if g.RunnerOf? then ByRunner else BySuspender))
    {
      ReachableInv(View());
      StepReachable(View(), Resume(g));
      claims, parent := claims - {g}, Proceeding(ViaOf(g));
    }

    method AwaitResume() returns (a: Answer)
      requires Valid() && parent.Proceeding?
      modifies this
      ensures Valid() && View() == Apply(old(View()), Proceed) && got == Some(a)
      ensures old(parent) == Proceeding(ByRunner) ==> a.result.Some?
      ensures a == Answer(readyIndex, result)
      ensures var s := old(View()); View() == s.(parent := Finished, via := Some(s.parent.via), got := Some(a))
    {
      ReachableInv(View());
      StepReachable(View(), Proceed);
      a := Answer(readyIndex, result);
      got, via, parent := Some(a), Some(parent.via), Finished;
    }
  }
}
