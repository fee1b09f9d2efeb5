/**
 `CancelableSleepAwaitable` and its reference-counted `ControlBox`. Copies of the awaitable each
 hold one reference; `await_suspend` lends one to the timer; the timer's callback, whichever of
 the two it is, pins the box for its own duration. A coroutine that was resumed may destroy the copy
 it awaited, although `await_suspend` or `cancel` of that copy has not returned in another thread.
 */
module CancelableSleep {
  import opened Counting
  import Runs

  datatype Phase = Pending | Canceled | Consumed

  /** The `await_suspend` call on copy `u`, after await_ready returned false and the coroutine is suspended. */
  datatype Suspension =
    | NotBegun
    | Cleared(u: nat)   // the waiter is not set yet
    | Lending(u: nat)   // waiter set, about to add the timer's reference
    | Adding(u: nat)    // about to add the timer task
    | Returned(u: nat)

  /** The one call of `cancel` that won the CAS, through copy `u`. */
  datatype Canceller =
    | NoCanceller
    | Winning(u: nat)   // about to read the waiter
    | Clearing(u: nat)  // resumed the waiter, about to reset the field

  /** The timer task; `fire` tells the callback from the cancellation. */
  datatype Task =
    | NotLent
    | Lent                  // reference added, task not yet added
    | Armed
    | Pinned(fire: bool)    // own reference added, about to release the lent one
    | Released(fire: bool)  // about to CAS
    | WinTask               // won the CAS, about to read the waiter
    | ClearTask             // resumed the waiter, about to reset the field
    | Unpinning             // about to release its own reference
    | Over

  datatype Decider = Nobody | ByUser(u: nat) | ByFire | ByStop

  /** The control box: its count, how often it was freed, its state and its waiter field. */
  datatype Box = Box(rc: int, frees: nat, phase: Phase, waiter: bool)

  /** What a winning `cancel` exposes to a coroutine that destroys its copy: nothing, the destroyed copy
      itself, or that and the box. */
  datatype Risk = NoRisk | CopyRisk | BoxRisk

  /** What has happened: whether the sleeper is suspended and how often it was resumed; who won the
      CAS, whether the waiter was set at that moment and what the winner exposed; whether the winner
      found no waiter. */
  datatype Story = Story(parked: bool, resumed: nat, decider: Decider, waiterSet: bool, risk: Risk, missed: bool)

  /** A freed box was touched; a destroyed copy was used; a running coroutine was resumed. */
  datatype Faults = Faults(freedBox: bool, deadCopy: bool, running: bool)

  datatype State = State(
    box: Box, copies: seq<bool>,  // which copies are alive
    suspension: Suspension, task: Task, canceller: Canceller, story: Story, faults: Faults)

  datatype Event =
    | Copy(u: nat) | Drop(u: nat)
    | AwaitReady(u: nat, late: bool) | SetWaiter | AddRef | AddTask
    | CancelCas(u: nat) | CancelResume | CancelClear
    | Pin(fire: bool) | ReleaseLent | TaskCas | TaskResume | TaskClear | Unpin

  const START := State(
    Box(1, 0, Pending, false), [true], NotBegun, NotLent, NoCanceller,
    Story(false, 0, Nobody, false, NoRisk, false), Faults(false, false, false))

  ghost predicate Init(s: State) {
    s == START
  }

  predicate Alive(copies: seq<bool>, u: nat) {
    u < |copies| && copies[u]
  }

  predicate Awaits(p: Suspension, u: nat) {
    !p.NotBegun? && p.u == u
  }

  /** The copy in the frame of the sleeper dies with its coroutine's consent only: not while it is
      suspended, but at any time afterwards. Any other copy belongs to whoever calls `cancel` through
      it. An await that finds the time come or the state decided may follow any other; one that
      suspends may not follow another one that did. */
  predicate Enabled(s: State, e: Event) {
    match e
    case Copy(u) => Alive(s.copies, u)
    case Drop(u) =>
      && Alive(s.copies, u)
      && (if Awaits(s.suspension, u) then !s.story.parked else s.canceller.NoCanceller? || s.canceller.u != u)
    case AwaitReady(u, late) => Alive(s.copies, u) && (late || s.box.phase != Pending || s.suspension.NotBegun?)
    case SetWaiter => s.suspension.Cleared?
    case AddRef => s.suspension.Lending?
    case AddTask => s.suspension.Adding?
    case CancelCas(u) => Alive(s.copies, u)
    case CancelResume => s.canceller.Winning?
    case CancelClear => s.canceller.Clearing?
    case Pin(_) => s.task.Armed?
    case ReleaseLent => s.task.Pinned?
    case TaskCas => s.task.Released?
    case TaskResume => s.task.WinTask?
    case TaskClear => s.task.ClearTask?
    case Unpin => s.task.Unpinning?
  }

  predicate OfTask(e: Event) {
    e.Pin? || e.ReleaseLent? || e.TaskCas? || e.TaskResume? || e.TaskClear? || e.Unpin?
  }

  predicate OfSuspension(e: Event) {
    e.SetWaiter? || e.AddRef? || e.AddTask?
  }

  predicate OfCanceller(e: Event) {
    e.CancelResume? || e.CancelClear?
  }

  // ---------- What an access may run into ----------

  /** The access goes through the pointer of a copy that was destroyed. */
  predicate UsesDeadCopy(s: State, e: Event)
    requires Enabled(s, e)
  {
    || (OfSuspension(e) && !Alive(s.copies, s.suspension.u))
    || (OfCanceller(e) && !Alive(s.copies, s.canceller.u))
  }

  /** Every access but `add_task`, which only passes the address on, touches the box. */
  predicate TouchesFreedBox(s: State, e: Event) {
    !e.AddTask? && s.box.frees > 0
  }

  predicate ResumesRunning(s: State, e: Event) {
    (e.CancelResume? || e.TaskResume?) && s.box.waiter && !s.story.parked
  }

  predicate Blocked(s: State, e: Event)
    requires Enabled(s, e)
  {
    UsesDeadCopy(s, e) || TouchesFreedBox(s, e) || ResumesRunning(s, e)
  }

  function Hit(s: State, e: Event): Faults
    requires Enabled(s, e)
  {
    Faults(
      s.faults.freedBox || TouchesFreedBox(s, e), s.faults.deadCopy || UsesDeadCopy(s, e),
      s.faults.running || ResumesRunning(s, e))
  }

  /** A faulty access is recorded and goes no further. */
  function Apply(s: State, e: Event): State
    requires Enabled(s, e)
  {
    if Blocked(s, e) then s.(faults := Hit(s, e)) else Plain(s, e)
  }

  function Plain(s: State, e: Event): State
    requires Enabled(s, e)
  {
    State(BoxStep(s, e), CopiesStep(s, e), SuspensionStep(s, e), TaskStep(s, e), CancellerStep(s, e), StoryStep(s, e), s.faults)
  }

  /** `intrusive_ptr_add_ref`. */
  function Acquire(b: Box): Box {
    b.(rc := b.rc + 1)
  }

  /** `intrusive_ptr_release`: the decrement that reaches zero frees the box. */
  function Release(b: Box): Box {
    Box(b.rc - 1, if b.rc == 1 then b.frees + 1 else b.frees, b.phase, b.waiter)
  }

  /** What a winning `cancel` through copy `u` exposes if the coroutine then destroys its copy. */
  function RiskOf(p: Suspension, u: nat): Risk {
    if p.NotBegun? then NoRisk
    else if p.u == u || p.Cleared? || p.Lending? then BoxRisk
    else if p.Adding? then CopyRisk
    else NoRisk
  }

  /** A CAS out of `Pending` was won. */
  function Decide(y: Story, d: Decider, waiter: bool, risk: Risk): Story {
    y.(decider := d, waiterSet := waiter, risk := risk)
  }

  /** The winner reads the waiter and resumes it if there is one. */
  function ResumeWaiter(y: Story, waiter: bool): Story {
    if !waiter then y.(missed := true) else y.(parked := false, resumed := y.resumed + 1)
  }

  function BoxStep(s: State, e: Event): Box
    requires Enabled(s, e)
  {
    match e
    case Copy(_) => Acquire(s.box)
    case Drop(_) => Release(s.box)
    case SetWaiter => s.box.(waiter := true)
    case AddRef => Acquire(s.box)
    case CancelCas(_) => if s.box.phase == Pending then s.box.(phase := Canceled) else s.box
    case CancelClear => s.box.(waiter := false)
    case Pin(_) => Acquire(s.box)
    case ReleaseLent => Release(s.box)
    case TaskCas =>
      if s.box.phase != Pending then s.box else s.box.(phase := if s.task.fire then Consumed else Canceled)
    case TaskClear => s.box.(waiter := false)
    case Unpin => Release(s.box)
    case _ => s.box
  }

  function CopiesStep(s: State, e: Event): seq<bool>
    requires Enabled(s, e)
  {
    match e
    case Copy(_) => s.copies + [true]
    case Drop(u) => s.copies[u := false]
    case _ => s.copies
  }

  function SuspensionStep(s: State, e: Event): Suspension
    requires Enabled(s, e)
  {
    match e
    case AwaitReady(u, late) => if late || s.box.phase != Pending then s.suspension else Cleared(u)
    case SetWaiter => Lending(s.suspension.u)
    case AddRef => Adding(s.suspension.u)
    case AddTask => Returned(s.suspension.u)
    case _ => s.suspension
  }

  function CancellerStep(s: State, e: Event): Canceller
    requires Enabled(s, e)
  {
    match e
    case CancelCas(u) => if s.box.phase == Pending then Winning(u) else s.canceller
    case CancelResume => if s.box.waiter then Clearing(s.canceller.u) else NoCanceller
    case CancelClear => NoCanceller
    case _ => s.canceller
  }

  function TaskStep(s: State, e: Event): Task
    requires Enabled(s, e)
  {
    match e
    case AddRef => Lent
    case AddTask => Armed
    case Pin(fire) => Pinned(fire)
    case ReleaseLent => Released(s.task.fire)
    case TaskCas => if s.box.phase == Pending then WinTask else Unpinning
    case TaskResume => if s.box.waiter then ClearTask else Unpinning
    case TaskClear => Unpinning
    case Unpin => Over
    case _ => s.task
  }

  function StoryStep(s: State, e: Event): Story
    requires Enabled(s, e)
  {
    match e
    case AwaitReady(u, late) => if late || s.box.phase != Pending then s.story else s.story.(parked := true)
    case CancelCas(u) =>
      if s.box.phase != Pending then s.story
      else Decide(s.story, ByUser(u), s.box.waiter, RiskOf(s.suspension, u))
    case TaskCas =>
      if s.box.phase != Pending then s.story
      else Decide(s.story, if s.task.fire then ByFire else ByStop, s.box.waiter, NoRisk)
    case CancelResume => ResumeWaiter(s.story, s.box.waiter)
    case TaskResume => ResumeWaiter(s.story, s.box.waiter)
    case _ => s.story
  }

  ghost predicate Next(s: State, s': State) {
    exists e :: Enabled(s, e) && s' == Apply(s, e)
  }

  ghost predicate IsRun(b: seq<State>) {
    Runs.IsRun(b, Init, Next)
  }

  ghost predicate Reachable(s: State) {
    Runs.Reachable(s, Init, Next)
  }

  // ---------- The invariant ----------

  function CopyRef(alive: bool): int { if alive then 1 else 0 }

  function TaskRef(t: Task): int {
    if t.NotLent? || t.Over? then 0 else if t.Pinned? then 2 else 1
  }

  /** The count is the live copies plus the reference lent to the timer plus the callback's pin. */
  ghost predicate CountOk(b: Box, copies: seq<bool>, task: Task) {
    && b.rc == Total(copies, CopyRef) + TaskRef(task)
    && b.frees == (if b.rc == 0 then 1 else 0)
  }

  /** How far `await_suspend` and the timer task are, and what that says of the waiter. */
  ghost predicate SuspensionOk(copies: seq<bool>, p: Suspension, task: Task, waiter: bool, y: Story) {
    && (p.NotBegun? ==> !waiter && !y.parked && y.resumed == 0)
    && (!p.NotBegun? ==> p.u < |copies| && (y.parked ==> copies[p.u]))
    && (p.Cleared? ==> !waiter && y.parked && y.resumed == 0)
    && (y.parked && !waiter ==> p.Cleared?)
    && (p.NotBegun? || p.Cleared? || p.Lending? <==> task.NotLent?)
    && (p.Adding? <==> task.Lent?)
    && (y.decider == ByFire || y.decider == ByStop ==> task.WinTask? || task.ClearTask? || task.Unpinning? || task.Over?)
  }

  /** The winner of the CAS, and nobody else, is about to read or reset the waiter. */
  ghost predicate WinnerOk(canceller: Canceller, task: Task, phase: Phase, decider: Decider) {
    && (!canceller.NoCanceller? ==> decider == ByUser(canceller.u))
    && (task.WinTask? || task.ClearTask? ==> decider == ByFire || decider == ByStop)
    && (phase == Pending <==> decider == Nobody)
    && (phase == Consumed <==> decider == ByFire)
    && (task.Unpinning? || task.Over? ==> phase != Pending)
  }

  /** The canceller's own copy is alive, unless the sleeper awaited that very copy and has gone on. */
  ghost predicate CancellerOk(copies: seq<bool>, p: Suspension, canceller: Canceller, y: Story) {
    !canceller.NoCanceller? && (Awaits(p, canceller.u) ==> y.parked) ==> Alive(copies, canceller.u)
  }

  predicate WinnerReads(canceller: Canceller, task: Task) {
    canceller.Winning? || task.WinTask?
  }

  predicate WinnerClears(canceller: Canceller, task: Task) {
    canceller.Clearing? || task.ClearTask?
  }

  /** The sleeper stays suspended until the winner has read the waiter, for ever if the winner
      found none; a waiter set before the CAS was won is found. */
  ghost predicate SleeperOk(y: Story, slept: bool, waiter: bool, reading: bool, clearing: bool) {
    && (y.decider == Nobody || reading ==> y.resumed == 0 && !y.missed)
    && (clearing ==> y.resumed == 1 && waiter)
    && (y.decider != Nobody ==> reading || y.missed != (y.resumed == 1))
    && y.resumed <= 1
    && (y.resumed == 1 ==> !y.parked)
    && (waiter && !y.parked ==> clearing)
    && (y.waiterSet ==> y.decider != Nobody && !y.missed && (reading ==> waiter))
    && (slept && y.resumed == 0 ==> y.parked)
    && (y.decider == ByFire || y.decider == ByStop ==> y.waiterSet)
  }

  /** What the winner exposed says where `await_suspend` was then. */
  ghost predicate RiskOk(p: Suspension, y: Story) {
    && (!y.decider.ByUser? ==> y.risk == NoRisk && (y.decider != Nobody ==> p.Returned?))
    && (y.decider.ByUser? && y.risk == NoRisk ==> p.NotBegun? || (p.Returned? && p.u != y.decider.u))
    && (y.risk == CopyRisk ==> (p.Adding? || p.Returned?) && p.u != y.decider.u)
  }

  ghost predicate FaultsOk(f: Faults, risk: Risk) {
    !f.running && (f.deadCopy ==> risk != NoRisk) && (f.freedBox ==> risk == BoxRisk)
  }

  ghost predicate Inv(s: State) {
    && CountOk(s.box, s.copies, s.task)
    && SuspensionOk(s.copies, s.suspension, s.task, s.box.waiter, s.story)
    && WinnerOk(s.canceller, s.task, s.box.phase, s.story.decider)
    && CancellerOk(s.copies, s.suspension, s.canceller, s.story)
    && SleeperOk(s.story, !s.suspension.NotBegun?, s.box.waiter, WinnerReads(s.canceller, s.task), WinnerClears(s.canceller, s.task))
    && RiskOk(s.suspension, s.story)
    && FaultsOk(s.faults, s.story.risk)
  }

  // ---------- Every step keeps the invariant ----------

  /** Whoever touches the box through a live copy, or is the timer's callback, has a reference to it. */
  lemma TouchedIsLive(s: State, e: Event)
    requires CountOk(s.box, s.copies, s.task) && Enabled(s, e) && !UsesDeadCopy(s, e)
    ensures s.box.rc > 0 && s.box.frees == 0
  {
    TotalBounds(s.copies, CopyRef);
    if !OfTask(e) {
      var u := if OfSuspension(e) then s.suspension.u else if OfCanceller(e) then s.canceller.u else e.u;
      assert CopyRef(s.copies[u]) == 1;
    }
  }

  lemma CountKept(s: State, e: Event)
    requires Inv(s) && Enabled(s, e) && !UsesDeadCopy(s, e)
    ensures CountOk(BoxStep(s, e), CopiesStep(s, e), TaskStep(s, e))
  {
    TouchedIsLive(s, e);
    CopiesCounted(s, e);
    RefsCounted(s, e);
  }

  lemma CopiesCounted(s: State, e: Event)
    requires Enabled(s, e)
    ensures Total(CopiesStep(s, e), CopyRef) == Total(s.copies, CopyRef) + (if e.Copy? then 1 else if e.Drop? then -1 else 0)
  {
    if e.Copy? {
      TotalAppend(s.copies, true, CopyRef);
    } else if e.Drop? {
      TotalUpdate(s.copies, e.u, false, CopyRef);
    }
  }

  lemma RefsCounted(s: State, e: Event)
    requires SuspensionOk(s.copies, s.suspension, s.task, s.box.waiter, s.story) && Enabled(s, e)
    ensures BoxStep(s, e).rc - TaskRef(TaskStep(s, e)) ==
      s.box.rc - TaskRef(s.task) + (if e.Copy? then 1 else if e.Drop? then -1 else 0)
    ensures BoxStep(s, e).frees == s.box.frees + (if BoxStep(s, e).rc == 0 && s.box.rc == 1 then 1 else 0)
    ensures BoxStep(s, e).rc >= s.box.rc - 1
  {
  }

  lemma SuspensionKept(s: State, e: Event)
    requires Inv(s) && Enabled(s, e)
    ensures SuspensionOk(CopiesStep(s, e), SuspensionStep(s, e), TaskStep(s, e), BoxStep(s, e).waiter, StoryStep(s, e))
  {
  }

  lemma WinnerKept(s: State, e: Event)
    requires WinnerOk(s.canceller, s.task, s.box.phase, s.story.decider) && Enabled(s, e)
    ensures WinnerOk(CancellerStep(s, e), TaskStep(s, e), BoxStep(s, e).phase, StoryStep(s, e).decider)
  {
  }

  lemma CancellerKept(s: State, e: Event)
    requires Inv(s) && Enabled(s, e)
    ensures CancellerOk(CopiesStep(s, e), SuspensionStep(s, e), CancellerStep(s, e), StoryStep(s, e))
  {
  }

  lemma SleeperKept(s: State, e: Event)
    requires Inv(s) && Enabled(s, e)
    ensures !ResumesRunning(s, e)
    ensures SleeperOk(StoryStep(s, e), !SuspensionStep(s, e).NotBegun?, BoxStep(s, e).waiter,
      WinnerReads(CancellerStep(s, e), TaskStep(s, e)), WinnerClears(CancellerStep(s, e), TaskStep(s, e)))
  {
  }

  lemma RiskKept(s: State, e: Event)
    requires Inv(s) && Enabled(s, e)
    ensures RiskOk(SuspensionStep(s, e), StoryStep(s, e))
    ensures s.story.risk != NoRisk ==> StoryStep(s, e).risk == s.story.risk
  {
  }

  /** Only an access through a dead copy finds a freed box, and only what the winner exposed is hit. */
  lemma FaultsKept(s: State, e: Event)
    requires Inv(s) && Enabled(s, e)
    ensures UsesDeadCopy(s, e) ==> s.story.risk != NoRisk
    ensures TouchesFreedBox(s, e) ==> s.story.risk == BoxRisk
  {
    if !UsesDeadCopy(s, e) { TouchedIsLive(s, e); }
  }

  lemma StepKeepsInv(s: State, e: Event)
    requires Inv(s) && Enabled(s, e)
    ensures Inv(Apply(s, e))
  {
    SleeperKept(s, e);
    FaultsKept(s, e);
    if !Blocked(s, e) { PlainKeepsInv(s, e); }
  }

  lemma PlainKeepsInv(s: State, e: Event)
    requires Inv(s) && Enabled(s, e) && !Blocked(s, e)
    ensures Inv(Plain(s, e))
  {
    CountKept(s, e);
    SuspensionKept(s, e);
    WinnerKept(s, e);
    CancellerKept(s, e);
    SleeperKept(s, e);
    RiskKept(s, e);
  }

  lemma InvIsInductive()
    ensures Runs.Inductive(Init, Next, Inv)
  {
    forall s | Init(s) ensures Inv(s) {
      assert [true][1..] == [];
      assert Total([true], CopyRef) == 1;
    }
    forall s, s' | Inv(s) && Next(s, s') ensures Inv(s') {
      var e :| Enabled(s, e) && s' == Apply(s, e);
      StepKeepsInv(s, e);
    }
  }

  lemma ReachableInv(s: State)
    requires Reachable(s)
    ensures Inv(s)
  {
    InvIsInductive();
    Runs.ReachableInvariant(s, Init, Next, Inv);
  }

  lemma StepReachable(s: State, e: Event)
    requires Reachable(s) && Enabled(s, e)
    ensures Reachable(Apply(s, e)) && Inv(s) && !ResumesRunning(s, e)
    ensures !UsesDeadCopy(s, e) ==> Apply(s, e) == Plain(s, e)
  {
    assert Next(s, Apply(s, e));
    Runs.StepIsReachable(s, Apply(s, e), Init, Next);
    ReachableInv(s);
    SleeperKept(s, e);
    if !UsesDeadCopy(s, e) { TouchedIsLive(s, e); }
  }

  // ---------- References ----------

  /** The count is always the references there are, and the box is freed once, when there is none. */
  lemma ReferencesCounted(s: State)
    requires Reachable(s)
    ensures s.box.rc == Total(s.copies, CopyRef) + TaskRef(s.task) && s.box.rc >= 0
    ensures s.box.frees <= 1 && (s.box.frees == 1 <==> s.box.rc == 0)
  {
    ReachableInv(s);
    TotalBounds(s.copies, CopyRef);
  }

  /** The box is gone exactly when every copy is gone and the timer holds no reference. */
  lemma FreedIffNobodyHolds(s: State)
    requires Reachable(s)
    ensures s.box.frees == 1 <==>
      (s.task.NotLent? || s.task.Over?) && forall u :: 0 <= u < |s.copies| ==> !s.copies[u]
  {
    ReachableInv(s);
    TotalBounds(s.copies, CopyRef);
    if s.box.frees == 1 {
      forall u | 0 <= u < |s.copies| ensures !s.copies[u] { assert CopyRef(s.copies[u]) == 0; }
    } else if forall u :: 0 <= u < |s.copies| ==> !s.copies[u] {
      AllGone(s.copies);
    }
  }

  lemma {:induction false} AllGone(copies: seq<bool>)
    requires forall u :: 0 <= u < |copies| ==> !copies[u]
    ensures Total(copies, CopyRef) == 0
  {
    if copies == [] {
    } else {
      AllGone(copies[1..]);
    }
  }

  // ---------- What a cancel exposes ----------

  ghost predicate Follows(from: State, s: State) {
    Runs.Follows(from, s, Next)
  }

  /** A `cancel` through copy `u` is about to win. */
  ghost predicate AboutToWin(s: State, u: nat) {
    Reachable(s) && Enabled(s, CancelCas(u)) && s.box.phase == Pending
  }

  /** As long as no winning `cancel` exposed anything, nobody uses a destroyed copy or a freed box; a
      running coroutine is never resumed. */
  lemma SafeUnlessExposed(s: State)
    requires Reachable(s)
    ensures !s.faults.running
    ensures s.story.risk == NoRisk ==> s.faults == Faults(false, false, false)
    ensures s.story.risk != NoRisk ==> s.story.decider.ByUser?
  {
    ReachableInv(s);
  }

  /** Once the state is decided no step changes who won, or what the winner found and exposed, and
      nobody suspends any more. */
  lemma DecidedStep(s: State, e: Event)
    requires Enabled(s, e) && s.box.phase != Pending
    ensures var s' := Apply(s, e);
      && s'.box.phase != Pending && s'.story.risk == s.story.risk && s'.story.waiterSet == s.story.waiterSet
      && (s'.suspension.NotBegun? <==> s.suspension.NotBegun?)
  {
  }

  lemma RiskIsFinal(from: State, s: State)
    requires Inv(from) && from.box.phase != Pending && Follows(from, s)
    ensures Inv(s) && s.story.risk == from.story.risk
  {
    var inv := (x: State) => Inv(x) && x.box.phase != Pending && x.story.risk == from.story.risk;
    forall x, x' | inv(x) && Next(x, x') ensures inv(x') {
      var e :| Enabled(x, e) && x' == Apply(x, e);
      StepKeepsInv(x, e);
      DecidedStep(x, e);
    }
    Runs.FollowsInvariant(from, s, Next, inv);
  }

  /** After a `cancel` wins, a freed box can be touched exactly if a coroutine sleeps and either the
      call goes through the very copy it awaits, or `await_suspend` has not yet lent the timer's
      reference. */
  lemma FreedBoxIff(s: State, u: nat)
    requires AboutToWin(s, u)
    ensures (exists s' :: Follows(Apply(s, CancelCas(u)), s') && s'.faults.freedBox) <==>
      !s.suspension.NotBegun? && (s.suspension.u == u || s.suspension.Cleared? || s.suspension.Lending?)
  {
    StepReachable(s, CancelCas(u));
    var from := Apply(s, CancelCas(u));
    ReachableInv(from);
    if s' :| Follows(from, s') && s'.faults.freedBox {
      RiskIsFinal(from, s');
    }
    if RiskOf(s.suspension, u) == BoxRisk {
      var s' := ReachFreedBox(s, u);
    }
  }

  /** A destroyed copy can be used exactly if a coroutine sleeps and either the call goes through the
      very copy it awaits, or `await_suspend` has not returned. */
  lemma DeadCopyIff(s: State, u: nat)
    requires AboutToWin(s, u)
    ensures (exists s' :: Follows(Apply(s, CancelCas(u)), s') && s'.faults.deadCopy) <==>
      !s.suspension.NotBegun? && (s.suspension.u == u || !s.suspension.Returned?)
  {
    StepReachable(s, CancelCas(u));
    var from := Apply(s, CancelCas(u));
    ReachableInv(from);
    if s' :| Follows(from, s') && s'.faults.deadCopy {
      RiskIsFinal(from, s');
    }
    if RiskOf(s.suspension, u) != NoRisk {
      var s' := ReachDeadCopy(s, u);
    }
  }

  // ---------- The schedules behind these conditions ----------

  lemma Go(from: State, s: State, e: Event) returns (s': State)
    requires Inv(s) && Follows(from, s) && Enabled(s, e)
    ensures Inv(s') && Follows(from, s') && s' == Apply(s, e)
    ensures !UsesDeadCopy(s, e) ==> s' == Plain(s, e)
  {
    s' := Apply(s, e);
    StepKeepsInv(s, e);
    SleeperKept(s, e);
    if !UsesDeadCopy(s, e) { TouchedIsLive(s, e); }
    assert Next(s, s');
    Runs.FollowsStep(from, s, s', Next);
  }

  /** The winner finds the waiter, set just in time if need be, and resumes it. */
  lemma CancelWakes(s: State, u: nat) returns (s': State)
    requires AboutToWin(s, u) && !s.suspension.NotBegun?
    ensures Inv(s') && Follows(Apply(s, CancelCas(u)), s')
    ensures s'.canceller == Clearing(u) && !s'.story.parked && s'.box.phase == Canceled && s'.copies == s.copies
    ensures s'.suspension == if s.suspension.Cleared? then Lending(s.suspension.u) else s.suspension
    ensures s'.task == s.task
  {
    ReachableInv(s);
    StepReachable(s, CancelCas(u));
    var from := Apply(s, CancelCas(u));
    StepKeepsInv(s, CancelCas(u));
    Runs.FollowsItself(from, Next);
    s' := from;
    if s'.suspension.Cleared? { s' := Go(from, s', SetWaiter); }
    s' := Go(from, s', CancelResume);
  }

  lemma ReachDeadCopy(s: State, u: nat) returns (s': State)
    requires AboutToWin(s, u) && RiskOf(s.suspension, u) != NoRisk
    ensures Follows(Apply(s, CancelCas(u)), s') && s'.faults.deadCopy
  {
    var from := Apply(s, CancelCas(u));
    s' := CancelWakes(s, u);
    ReachableInv(s);
    s' := Go(from, s', Drop(s.suspension.u));
    if s.suspension.u == u {
      s' := Go(from, s', CancelClear);
    } else if s'.suspension.Lending? {
      s' := Go(from, s', AddRef);
    } else {
      s' := Go(from, s', AddTask);
    }
  }

  lemma ReachFreedBox(s: State, u: nat) returns (s': State)
    requires AboutToWin(s, u) && RiskOf(s.suspension, u) == BoxRisk
    ensures Follows(Apply(s, CancelCas(u)), s') && s'.faults.freedBox
  {
    var from := Apply(s, CancelCas(u));
    s' := CancelWakes(s, u);
    if s.suspension.u == u {
      s' := EndTask(from, s');
      s' := DropAll(from, s', 0);
      FreedWhenDropped(s');
      s' := Go(from, s', CancelClear);
    } else {
      s' := Go(from, s', CancelClear);
      s' := DropAll(from, s', 0);
      FreedWhenDropped(s');
      s' := Go(from, s', AddRef);
    }
  }

  /** `await_suspend` returns and the timer's callback runs to its end, too late to win. */
  lemma EndTask(from: State, s: State) returns (s': State)
    requires Inv(s) && Follows(from, s) && s.box.phase == Canceled && s.canceller.Clearing? && !s.story.parked
    requires !s.suspension.NotBegun? && Alive(s.copies, s.suspension.u)
    ensures Inv(s') && Follows(from, s') && (s'.task.NotLent? || s'.task.Over?)
    ensures s'.canceller == s.canceller && s'.story == s.story && s'.copies == s.copies && s'.box.phase == Canceled
    ensures !s'.suspension.NotBegun? && s'.suspension.u == s.suspension.u
  {
    s' := s;
    if s'.task.Lent? { s' := Go(from, s', AddTask); }
    s' := EndCallback(from, s');
  }

  /** The callback finds the state decided by a user. */
  ghost predicate TooLate(s: State) {
    s.box.phase == Canceled && s.story.decider.ByUser? && !s.task.Lent?
  }

  lemma EndCallback(from: State, s: State) returns (s': State)
    requires Inv(s) && Follows(from, s) && TooLate(s)
    ensures Inv(s') && Follows(from, s') && (s'.task.NotLent? || s'.task.Over?)
    ensures s' == s.(task := s'.task, box := s'.box) && s'.box.phase == Canceled
  {
    s' := s;
    if s'.task.Armed? { s' := Go(from, s', Pin(true)); }
    if s'.task.Pinned? { s' := Go(from, s', ReleaseLent); }
    s' := FinishCallback(from, s');
  }

  lemma FinishCallback(from: State, s: State) returns (s': State)
    requires Inv(s) && Follows(from, s) && TooLate(s) && !s.task.Armed? && !s.task.Pinned?
    ensures Inv(s') && Follows(from, s') && (s'.task.NotLent? || s'.task.Over?)
    ensures s' == s.(task := s'.task, box := s'.box) && s'.box.phase == Canceled
  {
    s' := s;
    if s'.task.Released? { s' := Go(from, s', TaskCas); }
    if s'.task.Unpinning? { s' := Go(from, s', Unpin); }
  }

  /** The coroutine that went on destroys its copy, and everybody else theirs. */
  lemma {:induction false} DropAll(from: State, s: State, i: nat) returns (s': State)
    requires Inv(s) && Follows(from, s) && !s.story.parked && i <= |s.copies|
    requires s.canceller.NoCanceller? || Awaits(s.suspension, s.canceller.u)
    requires forall u :: 0 <= u < i ==> !s.copies[u]
    ensures Inv(s') && Follows(from, s') && s' == s.(box := s'.box, copies := s'.copies)
    ensures forall u :: 0 <= u < |s'.copies| ==> !s'.copies[u]
    decreases |s.copies| - i
  {
    s' := s;
    if i < |s.copies| {
      if s.copies[i] { s' := Go(from, s', Drop(i)); }
      s' := DropAll(from, s', i + 1);
    }
  }

  lemma FreedWhenDropped(s: State)
    requires Inv(s) && (s.task.NotLent? || s.task.Over?) && forall u :: 0 <= u < |s.copies| ==> !s.copies[u]
    ensures s.box.frees == 1
  {
    AllGone(s.copies);
  }

  // ---------- One decision, one resumption ----------

  /** Of user cancel, timer fire and timer stop one wins, for good; the sleeper is resumed at most once. */
  lemma OneDecision(b: seq<State>, i: nat, j: nat)
    requires IsRun(b) && i <= j < |b|
    ensures b[i].story.resumed <= b[j].story.resumed <= 1
    ensures b[i].story.decider != Nobody ==> b[j].story.decider == b[i].story.decider && b[j].box.phase == b[i].box.phase
    ensures b[j].box.phase == Consumed <==> b[j].story.decider == ByFire
  {
    InvIsInductive();
    forall s, s' | Inv(s) && Next(s, s') ensures DecisionKept(s, s') {
      var e :| Enabled(s, e) && s' == Apply(s, e);
      StepKeepsDecision(s, e);
    }
    Runs.Monotone(b, Init, Next, Inv, DecisionKept, i, j);
    Runs.InvariantAt(b, Init, Next, Inv, j);
  }

  ghost predicate DecisionKept(s: State, s': State) {
    && (s.story.decider != Nobody ==> s'.story.decider == s.story.decider && s'.box.phase == s.box.phase)
    && s.story.resumed <= s'.story.resumed
  }

  lemma StepKeepsDecision(s: State, e: Event)
    requires Inv(s) && Enabled(s, e)
    ensures DecisionKept(s, Apply(s, e))
  {
  }

  // ---------- Which callback the timer called ----------

  ghost predicate Does(s: State, e: Event, s': State) {
    Enabled(s, e) && s' == Apply(s, e)
  }

  ghost predicate Traced(b: seq<State>, es: seq<Event>) {
    Runs.IsTrace(b, es, Init, Does)
  }

  lemma TracedRun(b: seq<State>, es: seq<Event>, j: nat)
    requires Traced(b, es) && j <= |es|
    ensures IsRun(b) && Inv(b[j])
  {
    Runs.TraceIsRun(b, es, Init, Does, Next);
    InvIsInductive();
    Runs.InvariantAt(b, Init, Next, Inv, j);
  }

  /** The timer called the callback (`fire`) or the cancellation, and nothing contradicts it. */
  ghost predicate CalledBack(s: State, fire: bool) {
    && !s.task.NotLent? && !s.task.Lent? && !s.task.Armed?
    && (s.task.Pinned? || s.task.Released? ==> s.task.fire == fire)
    && (s.box.phase != Pending && !s.story.decider.ByUser? ==> s.box.phase == if fire then Consumed else Canceled)
  }

  lemma CalledBackStep(s: State, e: Event, fire: bool)
    requires Inv(s) && Enabled(s, e) && CalledBack(s, fire)
    ensures CalledBack(Apply(s, e), fire)
  {
  }

  lemma CallsBack(s: State, fire: bool)
    requires Inv(s) && Enabled(s, Pin(fire))
    ensures CalledBack(Apply(s, Pin(fire)), fire)
  {
    TouchedIsLive(s, Pin(fire));
  }

  /** Once the timer has called one of the two, a decision that no user made is of that kind. */
  lemma {:induction false} CallbackDecides(b: seq<State>, es: seq<Event>, i: nat, j: nat, fire: bool)
    requires Traced(b, es) && i < j <= |es| && es[i] == Pin(fire)
    ensures CalledBack(b[j], fire)
  {
    assert Runs.MovesAt(b, es, Does, j - 1);
    TracedRun(b, es, j - 1);
    if i + 1 == j {
      CallsBack(b[i], fire);
    } else {
      CallbackDecides(b, es, i, j - 1, fire);
      CalledBackStep(b[j - 1], es[j - 1], fire);
    }
  }

  /** A callback that is running was called. */
  lemma {:induction false} WasCalled(b: seq<State>, es: seq<Event>, j: nat) returns (i: nat)
    requires Traced(b, es) && j <= |es| && (b[j].task.Pinned? || b[j].task.Released?)
    ensures i < j && es[i] == Pin(b[j].task.fire)
  {
    if j == 0 {
      assert false;
    } else {
      assert Runs.MovesAt(b, es, Does, j - 1);
      if es[j - 1].Pin? { i := j - 1; } else { i := WasCalled(b, es, j - 1); }
    }
  }

  /** As event `k` the callback, called as event `i` because the time had come, won the CAS. */
  ghost predicate FiredAndWon(b: seq<State>, es: seq<Event>, i: nat, k: nat)
    requires |b| == |es| + 1
  {
    i < k < |es| && es[i] == Pin(true) && es[k] == TaskCas && b[k].box.phase == Pending
  }

  /** `await_resume` answers whether the sleep ran its time: whether the state is `Consumed`. It is so
      exactly if the timer called the callback, not the cancellation, and that won the CAS. */
  lemma AnswersWhetherFired(b: seq<State>, es: seq<Event>, j: nat)
    requires Traced(b, es) && j <= |es|
    ensures b[j].box.phase == Consumed <==> exists i: nat, k: nat :: k < j && FiredAndWon(b, es, i, k)
  {
    if b[j].box.phase == Consumed {
      var k := WhenConsumed(b, es, j);
      var i := WasCalled(b, es, k);
      assert FiredAndWon(b, es, i, k);
    }
    if i: nat, k: nat :| k < j && FiredAndWon(b, es, i, k) {
      WonByFire(b, es, i, k);
      TracedRun(b, es, j);
      OneDecision(b, k + 1, j);
    }
  }

  lemma WonByFire(b: seq<State>, es: seq<Event>, i: nat, k: nat)
    requires Traced(b, es) && FiredAndWon(b, es, i, k)
    ensures b[k + 1].box.phase == Consumed && b[k + 1].story.decider == ByFire
  {
    assert Runs.MovesAt(b, es, Does, k);
    CallbackDecides(b, es, i, k, true);
    TracedRun(b, es, k);
    TouchedIsLive(b[k], TaskCas);
  }

  lemma {:induction false} WhenConsumed(b: seq<State>, es: seq<Event>, j: nat) returns (k: nat)
    requires Traced(b, es) && j <= |es| && b[j].box.phase == Consumed
    ensures k < j && es[k] == TaskCas && b[k].box.phase == Pending && b[k].task == Released(true)
  {
    if j == 0 {
      assert false;
    } else {
      assert Runs.MovesAt(b, es, Does, j - 1);
      if b[j - 1].box.phase == Consumed { k := WhenConsumed(b, es, j - 1); } else { k := j - 1; }
    }
  }

  /** The timer task is over and no thread is inside `await_suspend` or `cancel`. */
  ghost predicate Quiet(s: State) {
    s.task.Over? && s.canceller.NoCanceller?
  }

  /** Then the sleeper has been resumed exactly once, unless the winner had found no waiter; that
      never happens if the waiter was set before the CAS was won, nor if the timer won it. */
  lemma ResumedUnlessMissed(s: State)
    requires Reachable(s) && Quiet(s)
    ensures s.story.decider != Nobody && s.suspension.Returned?
    ensures if s.story.missed then s.story.resumed == 0 && s.story.parked else s.story.resumed == 1 && !s.story.parked
    ensures s.story.waiterSet || !s.story.decider.ByUser? ==> s.story.resumed == 1
  {
    ReachableInv(s);
  }

  /** The sleeper is suspended for ever: everything is over and it was never resumed. */
  ghost predicate Forgotten(s: State) {
    Quiet(s) && s.story.parked && s.story.resumed == 0
  }

  /** A winning `cancel` can leave a sleeper suspended for ever exactly if `await_suspend` has begun
      and has not yet set the waiter. */
  lemma ForgottenIff(s: State, u: nat)
    requires AboutToWin(s, u)
    ensures (exists s' :: Follows(Apply(s, CancelCas(u)), s') && Forgotten(s')) <==> s.suspension.Cleared?
  {
    ReachableInv(s);
    StepReachable(s, CancelCas(u));
    var from := Apply(s, CancelCas(u));
    StepKeepsInv(s, CancelCas(u));
    if s' :| Follows(from, s') && Forgotten(s') && !s.suspension.Cleared? {
      FoundForGood(from, s');
    }
    if s.suspension.Cleared? {
      var s' := ReachForgotten(s, u);
    }
  }

  lemma FoundForGood(from: State, s: State)
    requires Inv(from) && from.box.phase != Pending && Follows(from, s)
    requires from.suspension.NotBegun? || from.story.waiterSet
    ensures !Forgotten(s)
  {
    var inv := (x: State) => Inv(x) && x.box.phase != Pending && (x.suspension.NotBegun? || x.story.waiterSet);
    forall x, x' | inv(x) && Next(x, x') ensures inv(x') {
      var e :| Enabled(x, e) && x' == Apply(x, e);
      StepKeepsInv(x, e);
      DecidedStep(x, e);
    }
    Runs.FollowsInvariant(from, s, Next, inv);
  }

  /** The winner reads the waiter before it is set; the timer fires later, when the state is no longer pending. */
  lemma ReachForgotten(s: State, u: nat) returns (s': State)
    requires AboutToWin(s, u) && s.suspension.Cleared?
    ensures Follows(Apply(s, CancelCas(u)), s') && Forgotten(s')
  {
    ReachableInv(s);
    StepReachable(s, CancelCas(u));
    var from := Apply(s, CancelCas(u));
    StepKeepsInv(s, CancelCas(u));
    Runs.FollowsItself(from, Next);
    s' := Go(from, from, CancelResume);
    s' := Go(from, s', SetWaiter);
    s' := Go(from, s', AddRef);
    s' := Go(from, s', AddTask);
    s' := EndCallback(from, s');
  }

  // ---------- The control box as an object, one method per atomic access ----------

  class ControlBox {
    var m_ref_count: int
    var state: Phase
    var waiter: bool
    var copies: seq<bool>
    var suspension: Suspension
    var task: Task
    var canceller: Canceller
    var frees: nat
    ghost var story: Story
    ghost var faults: Faults

    ghost function View(): State
      reads this
    {
      State(Box(m_ref_count, frees, state, waiter), copies, suspension, task, canceller, story, faults)
    }

    ghost predicate Valid()
      reads this
    {
      Reachable(View())
    }

    /** `make_intrusive`: one copy of the awaitable, one reference. */
    constructor ()
      ensures Valid() && View() == START
      ensures m_ref_count == 1 && state == Pending && !waiter && copies == [true] && suspension == NotBegun
    {
      m_ref_count, state, waiter := 1, Pending, false;
      copies, suspension, task, canceller, frees := [true], NotBegun, NotLent, NoCanceller, 0;
      story, faults := Story(false, 0, Nobody, false, NoRisk, false), Faults(false, false, false);
      new;
      Runs.InitialIsReachable(View(), Init, Next);
    }

    /** `intrusive_ptr_add_ref`. */
    method AddReference()
      modifies this`m_ref_count
      ensures m_ref_count == old(m_ref_count) + 1
    {
      m_ref_count := m_ref_count + 1;
    }

    /** `intrusive_ptr_release`; `last` means that the box is freed. */
    method ReleaseReference() returns (last: bool)
      modifies this`m_ref_count, this`frees
      ensures last == (old(m_ref_count) == 1) && m_ref_count == old(m_ref_count) - 1
      ensures frees == if last then old(frees) + 1 else old(frees)
    {
      last := m_ref_count == 1;
      m_ref_count := m_ref_count - 1;
      if last { frees := frees + 1; }
    }

    method CopyAwaitable(u: nat)
      requires Valid() && Enabled(View(), Copy(u))
      modifies this
      ensures Valid() && View() == Apply(old(View()), Copy(u))
      ensures var s := old(View()); View() == s.(box := s.box.(rc := s.box.rc + 1), copies := s.copies + [true])
    {
      StepReachable(View(), Copy(u));
      AddReference();
      copies := copies + [true];
    }

    /** The destructor of a copy: the last reference, wherever it goes, frees the box. */
    method DropAwaitable(u: nat) returns (freed: bool)
      requires Valid() && Enabled(View(), Drop(u))
      modifies this
      ensures Valid() && View() == Apply(old(View()), Drop(u))
      ensures freed == (m_ref_count == 0)
      ensures var s := old(View()); View() == s.(box := s.box.(rc := s.box.rc - 1, frees := if freed then s.box.frees + 1 else s.box.frees), copies := s.copies[u := false])
    {
      StepReachable(View(), Drop(u));
      freed := ReleaseReference();
      copies := copies[u := false];
    }

    method TestReady(u: nat, late: bool) returns (ready: bool)
      requires Valid() && Enabled(View(), AwaitReady(u, late))
      modifies this
      ensures Valid() && View() == Apply(old(View()), AwaitReady(u, late))
      ensures ready == (late || state != Pending)
      ensures var s := old(View());
        View() == if ready then s else s.(suspension := Cleared(u), story := s.story.(parked := true))
    {
      StepReachable(View(), AwaitReady(u, late));
      ready := late || state != Pending;
      if !ready {
        suspension, story := Cleared(u), story.(parked := true);
      }
    }

    method WriteWaiter()
      requires Valid() && suspension.Cleared?
      modifies this
      ensures Valid() && View() == Apply(old(View()), SetWaiter) && faults == old(faults)
      ensures var s := old(View()); View() == s.(box := s.box.(waiter := true), suspension := Lending(s.suspension.u))
    {
      StepReachable(View(), SetWaiter);
      waiter, suspension := true, Lending(suspension.u);
    }

    /** `ok` is false if the access is undefined: the copy this call runs on was destroyed. */
    method LendReference() returns (ok: bool)
      requires Valid() && suspension.Lending?
      modifies this
      ensures Valid() && View() == Apply(old(View()), AddRef) && ok == Alive(copies, suspension.u)
      ensures ok ==> var s := old(View()); View() == s.(box := s.box.(rc := s.box.rc + 1), suspension := Adding(s.suspension.u), task := Lent)
      ensures !ok ==> faults.deadCopy && View() == old(View()).(faults := faults)
    {
      StepReachable(View(), AddRef);
      ok := Alive(copies, suspension.u);
      if ok {
        AddReference();
        suspension, task := Adding(suspension.u), Lent;
      } else {
        faults := Hit(View(), AddRef);
      }
    }

    method AddTimerTask() returns (ok: bool)
      requires Valid() && suspension.Adding?
      modifies this
      ensures Valid() && View() == Apply(old(View()), AddTask) && ok == Alive(copies, suspension.u)
      ensures ok ==> var s := old(View()); View() == s.(suspension := Returned(s.suspension.u), task := Armed)
      ensures !ok ==> faults.deadCopy && View() == old(View()).(faults := faults)
    {
      StepReachable(View(), AddTask);
      ok := Alive(copies, suspension.u);
      if ok {
        suspension, task := Returned(suspension.u), Armed;
      } else {
        faults := Hit(View(), AddTask);
      }
    }

    method CompareExchangeByUser(u: nat) returns (won: bool)
      requires Valid() && Enabled(View(), CancelCas(u))
      modifies this
      ensures Valid() && View() == Apply(old(View()), CancelCas(u)) && won == (old(state) == Pending)
      ensures !won ==> View() == old(View())
      ensures won ==> state == Canceled && canceller == Winning(u) && story.decider == ByUser(u) && story.waiterSet == waiter
      ensures var s := old(View()); View() == s.(box := s.box.(phase := state), canceller := canceller, story := story)
    {
      StepReachable(View(), CancelCas(u));
      won := state == Pending;
      if won {
        story := Decide(story, ByUser(u), waiter, RiskOf(suspension, u));
        state, canceller := Canceled, Winning(u);
      }
    }

    method ResumeByUser()
      requires Valid() && canceller.Winning?
      modifies this
      ensures Valid() && View() == Apply(old(View()), CancelResume) && faults == old(faults)
      ensures old(waiter) ==> var s := old(View()); View() == s.(story := s.story.(parked := false, resumed := s.story.resumed + 1), canceller := Clearing(s.canceller.u))
      ensures !old(waiter) ==> var s := old(View()); View() == s.(story := s.story.(missed := true), canceller := NoCanceller)
    {
      StepReachable(View(), CancelResume);
      story := ResumeWaiter(story, waiter);
      canceller := if waiter then Clearing(canceller.u) else NoCanceller;
    }

    /** `ok` is false if the access is undefined: the copy this call runs on was destroyed. */
    method ClearByUser() returns (ok: bool)
      requires Valid() && canceller.Clearing?
      modifies this
      ensures Valid() && View() == Apply(old(View()), CancelClear) && ok == old(Alive(copies, canceller.u))
      ensures ok ==> var s := old(View()); View() == s.(box := s.box.(waiter := false), canceller := NoCanceller)
      ensures !ok ==> faults.deadCopy && View() == old(View()).(faults := faults)
    {
      StepReachable(View(), CancelClear);
      ok := Alive(copies, canceller.u);
      if ok {
        waiter, canceller := false, NoCanceller;
      } else {
        faults := Hit(View(), CancelClear);
      }
    }

    /** The callback or the cancellation begins: it pins the box. */
    method PinByTask(fire: bool)
      requires Valid() && task.Armed?
      modifies this
      ensures Valid() && View() == Apply(old(View()), Pin(fire))
      ensures var s := old(View()); View() == s.(box := s.box.(rc := s.box.rc + 1), task := Pinned(fire))
    {
      StepReachable(View(), Pin(fire));
      AddReference();
      task := Pinned(fire);
    }

    /** The lent reference is given back; the pin keeps the box. */
    method ReturnLent()
      requires Valid() && task.Pinned?
      modifies this
      ensures Valid() && View() == Apply(old(View()), ReleaseLent) && frees == old(frees)
      ensures var s := old(View()); View() == s.(box := s.box.(rc := s.box.rc - 1), task := Released(s.task.fire))
    {
      ReferencesCounted(View());
      TotalBounds(copies, CopyRef);
      StepReachable(View(), ReleaseLent);
      var last := ReleaseReference();
      task := Released(task.fire);
    }

    method CompareExchangeByTask() returns (won: bool)
      requires Valid() && task.Released?
      modifies this
      ensures Valid() && View() == Apply(old(View()), TaskCas) && won == (old(state) == Pending)
      ensures !won ==> var s := old(View()); View() == s.(task := Unpinning)
      ensures won ==> task == WinTask && state == (if old(task).fire then Consumed else Canceled)
      ensures won ==> story.decider == (if old(task).fire then ByFire else ByStop) && story.waiterSet == waiter
      ensures var s := old(View()); View() == s.(box := s.box.(phase := state), task := task, story := story)
    {
      StepReachable(View(), TaskCas);
      won := state == Pending;
      if won {
        story := Decide(story, if task.fire then ByFire else ByStop, waiter, NoRisk);
        state, task := if task.fire then Consumed else Canceled, WinTask;
      } else {
        task := Unpinning;
      }
    }

    method ResumeByTask()
      requires Valid() && task.WinTask?
      modifies this
      ensures Valid() && View() == Apply(old(View()), TaskResume)
      ensures old(waiter) ==> var s := old(View()); View() == s.(story := s.story.(parked := false, resumed := s.story.resumed + 1), task := ClearTask)
      ensures !old(waiter) ==> var s := old(View()); View() == s.(story := s.story.(missed := true), task := Unpinning)
    {
      StepReachable(View(), TaskResume);
      story := ResumeWaiter(story, waiter);
      task := if waiter then ClearTask else Unpinning;
    }

    method ClearByTask()
      requires Valid() && task.ClearTask?
      modifies this
      ensures Valid() && View() == Apply(old(View()), TaskClear)
      ensures var s := old(View()); View() == s.(box := s.box.(waiter := false), task := Unpinning)
    {
      StepReachable(View(), TaskClear);
      waiter, task := false, Unpinning;
    }

    /** `await_resume`: whether the sleep ran its time. */
    method AwaitResume() returns (slept: bool)
      requires Valid()
      ensures slept <==> state == Consumed
      ensures slept <==> story.decider == ByFire
    {
      ReachableInv(View());
      slept := state == Consumed;
    }

    /** The callback's own pointer is destroyed. */
    method UnpinByTask() returns (freed: bool)
      requires Valid() && task.Unpinning?
      modifies this
      ensures Valid() && View() == Apply(old(View()), Unpin) && freed == (m_ref_count == 0)
      ensures var s := old(View()); View() == s.(box := s.box.(rc := s.box.rc - 1, frees := if freed then s.box.frees + 1 else s.box.frees), task := Over)
    {
      StepReachable(View(), Unpin);
      freed := ReleaseReference();
      task := Over;
    }
  }
}
