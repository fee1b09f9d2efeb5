/** `TimeoutAwaitable`: an operand and a timer task race for one four-state word; whoever takes it
    out of `Pending` resumes the caller. */
module Timeouts {
  import opened Options
  import opened Outcomes
  import Runs

  datatype Word = Pending | HasValue | HasError | TimedOut

  /** The coroutine that awaits the operand. */
  datatype Worker =
    | NotStarted
    | Awaiting
    | Stored(r: Outcome)  // wrote the value or the exception, about to CAS
    | Winner              // about to resume the caller
    | Through

  /** The timer task of this awaitable. */
  datatype Task = NotAdded | Armed | Firing | Over

  /** Where `await_suspend` is. */
  datatype Suspender = NotCalled | AtCaller | AtStart | AtAdd | Returned

  datatype Answer = Nothing | Got(v: Payload) | Threw(e: Payload) | Undefined

  datatype Parent = Testing | Suspended | Proceeding | Finished(a: Answer)

  datatype State = State(
    word: Word, buf: Option<Payload>, exception: Option<Payload>, caller: bool,
    worker: Worker, task: Task, suspender: Suspender, parent: Parent,
    completed: Option<Outcome>,  // history: what the operand gave
    fault: bool)                 // a null caller, or one that was not suspended, was resumed

  datatype Event =
    | TestDeadline(late: bool) | SetCaller | StartWorker | AddTask
    | Complete(r: Outcome) | WorkerCas | WorkerResume
    | FireCas | FireResume | CancelTask
    | Return

  const START := State(Pending, None, None, false, NotStarted, NotAdded, NotCalled, Testing, None, false)

  ghost predicate Init(s: State) {
    s == START
  }

  predicate Enabled(s: State, e: Event) {
    match e
    case TestDeadline(_) => s.parent.Testing?
    case SetCaller => s.suspender.AtCaller?
    case StartWorker => s.suspender.AtStart?
    case AddTask => s.suspender.AtAdd?
    case Complete(_) => s.worker.Awaiting?
    case WorkerCas => s.worker.Stored?
    case WorkerResume => s.worker.Winner?
    case FireCas => s.task.Armed?
    case FireResume => s.task.Firing?
    case CancelTask => s.task.Armed?
    case Return => s.parent.Proceeding?
  }

  function ResumeCaller(s: State): State {
    if s.caller && s.parent.Suspended? then s.(parent := Proceeding) else s.(fault := true)
  }

  function AnswerOf(s: State): Answer {
    match s.word
    case Pending => Undefined
    case TimedOut => Nothing
    case HasValue => if s.buf.Some? then Got(s.buf.value) else Undefined
    case HasError => if s.exception.Some? then Threw(s.exception.value) else Undefined
  }

  function Apply(s: State, e: Event): State
    requires Enabled(s, e)
  {
    match e
    case TestDeadline(late) =>
      if late then s.(word := TimedOut, parent := Proceeding)
      else s.(parent := Suspended, suspender := AtCaller)
    case SetCaller => s.(caller := true, suspender := AtStart)
    case StartWorker => s.(worker := Awaiting, suspender := AtAdd)
    case AddTask => s.(task := Armed, suspender := Returned)
    case Complete(r) =>
      var s' := s.(worker := Stored(r), completed := Some(r));
      if r.Value? then s'.(buf := Some(r.v)) else s'.(exception := Some(r.e))
    case WorkerCas =>
      if s.word == Pending then s.(word := if s.worker.r.Value? then HasValue else HasError, worker := Winner)
      else s.(worker := Through)
    case WorkerResume => ResumeCaller(s.(worker := Through))
    case FireCas =>
      if s.word == Pending then s.(word := TimedOut, task := Firing) else s.(task := Over)
    case FireResume => ResumeCaller(s.(task := Over))
    case CancelTask => s.(task := Over)
    case Return => s.(parent := Finished(AnswerOf(s)))
  }

  ghost predicate Next(s: State, s': State) {
    exists e :: Enabled(s, e) && s' == Apply(s, e)
  }

  ghost predicate IsRun(b: seq<State>) {
    Runs.IsRun(b, Init, Next)
  }

  ghost predicate Reachable(s: State) {
    Runs.Reachable(s, Init, Next)
  }

  /** The worker and the timer's callback start only after the caller is set, in this order. */
  ghost predicate OrderOk(s: State) {
    && (s.parent.Testing? ==> s.suspender.NotCalled? && s.word == Pending)
    && (s.suspender.NotCalled? ==> !s.parent.Suspended?)
    && (s.suspender.NotCalled? || s.suspender.AtCaller? || s.suspender.AtStart? <==> s.worker.NotStarted?)
    && (s.task.NotAdded? <==> !s.suspender.Returned?)
    && (s.caller <==> !s.suspender.NotCalled? && !s.suspender.AtCaller?)
  }

  /** What the word says was stored before the word said it. */
  ghost predicate StoredOk(s: State) {
    && (s.worker.NotStarted? || s.worker.Awaiting? ==> s.completed == None)
    && (s.worker.Stored? ==> s.completed == Some(s.worker.r))
    && (s.completed.Some? ==> match s.completed.value
                              case Value(v) => s.buf == Some(v)
                              case Error(e) => s.exception == Some(e))
    && (s.word == HasValue ==> s.completed.Some? && s.completed.value.Value? && (s.worker.Winner? || s.worker.Through?))
    && (s.word == HasError ==> s.completed.Some? && s.completed.value.Error? && (s.worker.Winner? || s.worker.Through?))
  }

  /** While the caller is suspended the word is undecided or exactly its decider is about to resume. */
  ghost predicate DeciderOk(s: State) {
    && (s.worker.Winner? ==> (s.word == HasValue || s.word == HasError) && s.parent.Suspended?)
    && (s.task.Firing? ==> s.word == TimedOut && s.parent.Suspended?)
    && (s.parent.Suspended? ==> s.word == Pending || s.worker.Winner? || s.task.Firing?)
    && (s.worker.Through? ==> s.word != Pending)
    && (s.parent.Proceeding? || s.parent.Finished? ==> s.word != Pending)
    && (s.parent.Finished? ==> s.parent.a == AnswerOf(s))
    && (s.parent.Proceeding? || s.parent.Finished? ==> s.suspender.NotCalled? || s.suspender.Returned? || s.worker.Through?)
  }

  ghost predicate Inv(s: State) {
    OrderOk(s) && StoredOk(s) && DeciderOk(s) && !s.fault
  }

  lemma StepKeepsInv(s: State, e: Event)
    requires Inv(s) && Enabled(s, e)
    ensures Inv(Apply(s, e))
  {
  }

  lemma InvIsInductive()
    ensures Runs.Inductive(Init, Next, Inv)
  {
    forall s, s' | Inv(s) && Next(s, s') ensures Inv(s') {
      var e :| Enabled(s, e) && s' == Apply(s, e);
      StepKeepsInv(s, e);
    }
  }

  lemma ReachableInv(s: State)
    requires Reachable(s)
    ensures Inv(s)
  {
    InvIsInductive();
    Runs.ReachableInvariant(s, Init, Next, Inv);
  }

  lemma StepReachable(s: State, e: Event)
    requires Reachable(s) && Enabled(s, e)
    ensures Reachable(Apply(s, e))
  {
    assert Next(s, Apply(s, e));
    Runs.StepIsReachable(s, Apply(s, e), Init, Next);
  }

  function Given(r: Outcome): Answer {
    match r
    case Value(v) => Got(v)
    case Error(e) => Threw(e)
  }

  // ---------- What every run guarantees ----------

  /** Two parties never both get to resume the caller, and it is suspended when one does. */
  lemma OneDecider(s: State)
    requires Reachable(s)
    ensures !s.fault && !(s.worker.Winner? && s.task.Firing?)
    ensures s.worker.Winner? || s.task.Firing? ==> s.caller && s.parent.Suspended? && s.word != Pending
  {
    ReachableInv(s);
  }

  ghost predicate DecisionKept(s: State, s': State) {
    && (s.word != Pending ==> s'.word == s.word)
    && (s.parent.Finished? ==> s'.parent == s.parent)
  }

  /** Along a run the word leaves `Pending` at most once, and neither a late completion nor a late
      timer changes what was returned. */
  lemma DecisionIsFinal(b: seq<State>, i: nat, j: nat)
    requires IsRun(b) && i <= j < |b|
    ensures DecisionKept(b[i], b[j])
  {
    InvIsInductive();
    forall s, s' | Inv(s) && Next(s, s') ensures DecisionKept(s, s') {
      var e :| Enabled(s, e) && s' == Apply(s, e);
    }
    Runs.Monotone(b, Init, Next, Inv, DecisionKept, i, j);
  }

  /** The caller gets nothing exactly on a timeout, otherwise the operand's own value or exception. */
  lemma AnswerMatchesOutcome(s: State)
    requires Reachable(s) && s.parent.Finished?
    ensures s.parent.a == Nothing <==> s.word == TimedOut
    ensures s.parent.a != Nothing ==> s.completed.Some? && s.parent.a == Given(s.completed.value)
  {
    ReachableInv(s);
  }

  /** Whatever follows a decision, the word stays as decided. */
  lemma StaysDecided(from: State, s: State)
    requires Inv(from) && from.word != Pending && Runs.Follows(from, s, Next)
    ensures Inv(s) && s.word == from.word
  {
    var inv := (x: State) => Inv(x) && x.word == from.word;
    forall x, x' | inv(x) && Next(x, x') ensures inv(x') {
      var e :| Enabled(x, e) && x' == Apply(x, e);
      StepKeepsInv(x, e);
    }
    Runs.FollowsInvariant(from, s, Next, inv);
  }

  /** A deadline that fires on a pending word decides: whatever the operand gives, the caller gets nothing. */
  lemma FiringDecides(s: State, s': State)
    requires Reachable(s) && s.task.Armed? && s.word == Pending && Runs.Follows(Apply(s, FireCas), s', Next)
    ensures s'.word == TimedOut && (s'.parent.Finished? ==> s'.parent.a == Nothing)
  {
    ReachableInv(s);
    StepKeepsInv(s, FireCas);
    StaysDecided(Apply(s, FireCas), s');
  }

  /** So does a deadline that has passed before the await. */
  lemma LateAwaitDecides(s: State, s': State)
    requires Reachable(s) && s.parent.Testing? && Runs.Follows(Apply(s, TestDeadline(true)), s', Next)
    ensures s'.word == TimedOut && (s'.parent.Finished? ==> s'.parent.a == Nothing)
  {
    ReachableInv(s);
    StepKeepsInv(s, TestDeadline(true));
    StaysDecided(Apply(s, TestDeadline(true)), s');
  }

  /** A step that is not the operand's. */
  ghost predicate NextButOperand(s: State, s': State) {
    exists e :: Enabled(s, e) && !e.Complete? && !e.WorkerCas? && !e.WorkerResume? && s' == Apply(s, e)
  }

  /** After either the caller can return without any step of the operand. */
  lemma ReturnsWithoutOperand(s: State, e: Event) returns (s': State)
    requires Reachable(s) && Enabled(s, e) && (e == TestDeadline(true) || (e.FireCas? && s.word == Pending))
    ensures Runs.Follows(Apply(s, e), s', NextButOperand) && s'.parent == Finished(Nothing)
  {
    ReachableInv(s);
    StepKeepsInv(s, e);
    var from := Apply(s, e);
    Runs.FollowsItself(from, NextButOperand);
    s' := from;
    if e.FireCas? {
      s' := Apply(from, FireResume);
      assert NextButOperand(from, s');
      Runs.FollowsStep(from, from, s', NextButOperand);
    }
    assert NextButOperand(s', Apply(s', Return));
    Runs.FollowsStep(from, s', Apply(s', Return), NextButOperand);
    s' := Apply(s', Return);
  }

  /** What the operand gives is what the caller gets, unless it gets nothing. */
  lemma CompletionIsKept(s: State, r: Outcome, s': State)
    requires Reachable(s) && s.worker.Awaiting? && Runs.Follows(Apply(s, Complete(r)), s', Next)
    ensures s'.completed == Some(r) && (s'.parent.Finished? && s'.parent.a != Nothing ==> s'.parent.a == Given(r))
  {
    ReachableInv(s);
    StepKeepsInv(s, Complete(r));
    var inv := (x: State) => Inv(x) && x.completed == Some(r);
    forall x, x' | inv(x) && Next(x, x') ensures inv(x') {
      var e :| Enabled(x, e) && x' == Apply(x, e);
      StepKeepsInv(x, e);
    }
    Runs.FollowsInvariant(Apply(s, Complete(r)), s', Next, inv);
  }

  /** An operand that completes on a pending word decides: the caller gets what it gave. */
  lemma CompletionDecides(s: State, s': State)
    requires Reachable(s) && s.worker.Stored? && s.word == Pending && Runs.Follows(Apply(s, WorkerCas), s', Next)
    ensures s'.word != Pending && s'.word != TimedOut && (s'.parent.Finished? ==> s'.parent.a == Given(s.worker.r))
  {
    ReachableInv(s);
    StepKeepsInv(s, WorkerCas);
    var inv := (x: State) => Inv(x) && x.word == Apply(s, WorkerCas).word && x.completed == Some(s.worker.r);
    forall x, x' | inv(x) && Next(x, x') ensures inv(x') {
      var e :| Enabled(x, e) && x' == Apply(x, e);
      StepKeepsInv(x, e);
    }
    Runs.FollowsInvariant(Apply(s, WorkerCas), s', Next, inv);
  }

  /** When nothing more can happen the caller has returned, even if the timer was stopped. */
  lemma HaltsOnlyFinished(s: State, r: Outcome)
    requires Reachable(s) && forall e :: !Enabled(s, e)
    ensures s.parent.Finished?
  {
    ReachableInv(s);
    assert !Enabled(s, TestDeadline(true)) && !Enabled(s, SetCaller) && !Enabled(s, StartWorker) && !Enabled(s, AddTask);
    assert !Enabled(s, Complete(r)) && !Enabled(s, WorkerCas) && !Enabled(s, WorkerResume);
    assert !Enabled(s, FireResume) && !Enabled(s, Return);
  }

  // ---------- Can await_suspend outlive its await? ----------

  /** `await_suspend` has the timer task still to add, through the awaitable, although the caller has
      gone on, and may have destroyed the awaitable. */
  ghost predicate Late(s: State) {
    s.suspender.AtAdd? && !s.parent.Suspended?
  }

  /** It is late exactly if the operand has completed by then: the timer cannot be the reason. */
  lemma LateIff(s: State)
    requires Reachable(s) && s.suspender.AtAdd?
    ensures Late(s) <==> s.worker.Through?
  {
    ReachableInv(s);
  }

  /** Whatever the operand gives, it can complete that early: every call that resumes it can be late. */
  lemma CanAlwaysBeLate(s: State, r: Outcome) returns (s': State)
    requires Reachable(s) && s.suspender.AtStart?
    ensures Runs.Follows(Apply(s, StartWorker), s', Next) && Late(s') && s'.completed == Some(r)
  {
    ReachableInv(s);
    var from := Apply(s, StartWorker);
    Runs.FollowsItself(from, Next);
    s' := Go(from, from, Complete(r));
    s' := Go(from, s', WorkerCas);
    s' := Go(from, s', WorkerResume);
  }

  lemma Go(from: State, s: State, e: Event) returns (s': State)
    requires Runs.Follows(from, s, Next) && Enabled(s, e)
    ensures Runs.Follows(from, s', Next) && s' == Apply(s, e)
  {
    s' := Apply(s, e);
    assert Next(s, s');
    Runs.FollowsStep(from, s, s', Next);
  }

  // ---------- The shared state as an object, one method per atomic access ----------

  class TimeoutAwaitable {
    var state: Word
    var buf: Option<Payload>
    var exception: Option<Payload>
    var caller: bool
    var worker: Worker
    var task: Task
    var suspender: Suspender
    var parent: Parent
    ghost var completed: Option<Outcome>

    ghost function View(): State
      reads this
    {
      State(state, buf, exception, caller, worker, task, suspender, parent, completed, false)
    }

    ghost predicate Valid()
      reads this
    {
      Reachable(View())
    }

    constructor ()
      ensures Valid() && View() == START
      ensures state == Pending && buf == None && exception == None && !caller && worker == NotStarted
    {
      state, buf, exception, caller := Pending, None, None, false;
      worker, task, suspender, parent, completed := NotStarted, NotAdded, NotCalled, Testing, None;
      new;
      Runs.InitialIsReachable(View(), Init, Next);
    }

    method AwaitReady(late: bool) returns (ready: bool)
      requires Valid() && parent.Testing?
      modifies this
      ensures Valid() && View() == Apply(old(View()), TestDeadline(late)) && ready == late
      ensures var s := old(View());
        View() == if late then s.(word := TimedOut, parent := Proceeding) else s.(parent := Suspended, suspender := AtCaller)
    {
      StepReachable(View(), TestDeadline(late));
      ready := late;
      if late {
        state, parent := TimedOut, Proceeding;
      } else {
        parent, suspender := Suspended, AtCaller;
      }
    }

    method WriteCaller()
      requires Valid() && suspender.AtCaller?
      modifies this
      ensures Valid() && View() == Apply(old(View()), SetCaller)
      ensures var s := old(View()); View() == s.(caller := true, suspender := AtStart)
    {
      StepReachable(View(), SetCaller);
      caller, suspender := true, AtStart;
    }

    method ResumeWorker()
      requires Valid() && suspender.AtStart?
      modifies this
      ensures Valid() && View() == Apply(old(View()), StartWorker)
      ensures var s := old(View()); View() == s.(worker := Awaiting, suspender := AtAdd)
    {
      StepReachable(View(), StartWorker);
      worker, suspender := Awaiting, AtAdd;
    }

    method AddTimerTask()
      requires Valid() && suspender.AtAdd?
      modifies this
      ensures Valid() && View() == Apply(old(View()), AddTask)
      ensures var s := old(View()); View() == s.(task := Armed, suspender := Returned)
    {
      StepReachable(View(), AddTask);
      task, suspender := Armed, Returned;
    }

    method StoreOutcome(r: Outcome)
      requires Valid() && worker.Awaiting?
      modifies this
      ensures Valid() && View() == Apply(old(View()), Complete(r))
      ensures var s := old(View()); View() == s.(worker := Stored(r), completed := Some(r), buf := if r.Value? then Some(r.v) else s.buf,
        exception := if r.Error? then Some(r.e) else s.exception)
    {
      StepReachable(View(), Complete(r));
      worker, completed := Stored(r), Some(r);
      match r
      case Value(v) => buf := Some(v);
      case Error(e) => exception := Some(e);
    }

    method WorkerCompareExchange() returns (won: bool)
      requires Valid() && worker.Stored?
      modifies this
      ensures Valid() && View() == Apply(old(View()), WorkerCas) && won == (old(state) == Pending)
      ensures var s := old(View()); var r := s.worker.r;
        View() == if won then s.(word := if r.Value? then HasValue else HasError, worker := Winner) else s.(worker := Through)
    {
      StepReachable(View(), WorkerCas);
      won := state == Pending;
      if won {
        state := if worker.r.Value? then HasValue else HasError;
        worker := Winner;
      } else {
        worker := Through;
      }
    }

    method TimerCompareExchange() returns (won: bool)
      requires Valid() && task.Armed?
      modifies this
      ensures Valid() && View() == Apply(old(View()), FireCas) && won == (old(state) == Pending)
      ensures var s := old(View());
        View() == if won then s.(word := TimedOut, task := Firing) else s.(task := Over)
    {
      StepReachable(View(), FireCas);
      won := state == Pending;
      if won {
        state, task := TimedOut, Firing;
      } else {
        task := Over;
      }
    }

    method ResumeByWorker()
      requires Valid() && worker.Winner?
      modifies this
      ensures Valid() && View() == Apply(old(View()), WorkerResume) && parent.Proceeding?
      ensures var s := old(View()); View() == s.(worker := Through, parent := Proceeding)
    {
      OneDecider(View());
      StepReachable(View(), WorkerResume);
      worker, parent := Through, Proceeding;
    }

    method ResumeByTimer()
      requires Valid() && task.Firing?
      modifies this
      ensures Valid() && View() == Apply(old(View()), FireResume) && parent.Proceeding?
      ensures var s := old(View()); View() == s.(task := Over, parent := Proceeding)
    {
      OneDecider(View());
      StepReachable(View(), FireResume);
      task, parent := Over, Proceeding;
    }

    method CancelTimerTask()
      requires Valid() && task.Armed?
      modifies this
      ensures Valid() && View() == Apply(old(View()), CancelTask)
      ensures var s := old(View()); View() == s.(task := Over)
    {
      StepReachable(View(), CancelTask);
      task := Over;
    }

    method AwaitResume() returns (a: Answer)
      requires Valid() && parent.Proceeding?
      modifies this
      ensures Valid() && View() == Apply(old(View()), Return)
      ensures parent == Finished(a) && a != Undefined
      ensures state == TimedOut ==> a == Nothing
      ensures state == HasValue ==> buf.Some? && a == Got(buf.value)
      ensures state == HasError ==> exception.Some? && a == Threw(exception.value)
      ensures var s := old(View()); View() == s.(parent := Finished(a))
    {
      ReachableInv(View());
      StepReachable(View(), Return);
      a := match state
        case TimedOut => Nothing
        case HasValue => Got(buf.value)
        case HasError => Threw(exception.value);
      parent := Finished(a);
    }
  }
}
