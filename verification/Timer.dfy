/**
 `Timer`: tasks ordered by time under one mutex, a worker that runs them, and `stop`. The priority
 queue is a multiset with a least element; the mutex makes a critical section one step; a wait on
 the condition variable may end at any time and must end once a notification is pending. Times are
 in milliseconds.
 */
module Timers {
  import opened Options
  import Runs

  datatype Task = Task(time: int, id: nat)

  datatype Worker =
    | NotStarted
    | AtStop               // holds the mutex, about to test m_stop
    | AtTasks              // holds the mutex, at the inner loop test
    | AtSleep              // holds the mutex, behind the inner loop
    | Running(task: Task)  // in a callback, without the mutex
    | Sleeping(until: Option<int>)
    | Exited

  datatype Start = Start(task: Task, at: int)

  /** Tasks ever added, callbacks begun, callbacks over, tasks handed to their cancellation. */
  datatype Log = Log(added: seq<Task>, started: seq<Start>, executed: seq<Task>, cancelled: seq<Task>)

  datatype State = State(
    tasks: multiset<Task>, stop: bool, worker: Worker, notified: bool, now: int,
    // history; whether the last stop came during a callback; how many tasks had been added at the last stop
    log: Log, midCallback: bool, atStop: nat)

  datatype Event =
    | Add(time: int) | StopAll(order: seq<Task>) | Tick(d: nat)
    | Begin | TestStop | Poll(task: Option<Task>) | Finish | Sleep(first: Option<Task>) | Wake

  const START := State(multiset{}, false, NotStarted, false, 0, Log([], [], [], []), false, 0)

  ghost predicate Init(s: State) {
    s == START
  }

  /** The mutex is free. */
  predicate Unlocked(w: Worker) {
    !w.AtStop? && !w.AtTasks? && !w.AtSleep?
  }

  ghost predicate Earliest(t: Task, tasks: multiset<Task>) {
    t in tasks && forall u :: u in tasks ==> t.time <= u.time
  }

  ghost predicate Sorted(ts: seq<Task>) {
    forall i, j :: 0 <= i < j < |ts| ==> ts[i].time <= ts[j].time
  }

  ghost predicate Enabled(s: State, e: Event) {
    match e
    case Add(_) => Unlocked(s.worker)
    case StopAll(order) => Unlocked(s.worker) && multiset(order) == s.tasks && Sorted(order)
    case Tick(_) => true
    case Begin => s.worker.NotStarted?
    case TestStop => s.worker.AtStop?
    case Poll(None) => s.worker.AtTasks? && forall u :: u in s.tasks ==> u.time > s.now
    case Poll(Some(t)) => s.worker.AtTasks? && Earliest(t, s.tasks) && t.time <= s.now
    case Finish => s.worker.Running?
    case Sleep(None) => s.worker.AtSleep? && s.tasks == multiset{}
    case Sleep(Some(t)) => s.worker.AtSleep? && Earliest(t, s.tasks)
    case Wake => s.worker.Sleeping?
  }

  ghost function Apply(s: State, e: Event): State
    requires Enabled(s, e)
  {
    State(TasksStep(s, e), s.stop || e.StopAll?, WorkerStep(s, e), NotifiedStep(s, e),
      if e.Tick? then s.now + e.d else s.now, LogStep(s, e), if e.StopAll? then s.worker.Running? else s.midCallback,
      if e.StopAll? then |s.log.added| else s.atStop)
  }

  ghost function TasksStep(s: State, e: Event): multiset<Task> {
    match e
    case Add(time) => s.tasks + multiset{Task(time, |s.log.added|)}
    case StopAll(_) => multiset{}
    case Poll(Some(t)) => s.tasks - multiset{t}
    case _ => s.tasks
  }

  ghost function WorkerStep(s: State, e: Event): Worker
    requires Enabled(s, e)
  {
    match e
    case Begin => AtStop
    case TestStop => if s.stop then Exited else AtTasks
    case Poll(None) => AtSleep
    case Poll(Some(t)) => Running(t)
    case Finish => AtTasks
    case Sleep(None) => Sleeping(None)
    case Sleep(Some(t)) => if t.time > s.now then Sleeping(Some(t.time - 1)) else AtStop
    case Wake => AtStop
    case _ => s.worker
  }

  ghost function NotifiedStep(s: State, e: Event): bool {
    match e
    case Add(_) => s.notified || s.worker.Sleeping?
    case StopAll(_) => s.notified || s.worker.Sleeping?
    case Sleep(_) => false
    case Wake => false
    case _ => s.notified
  }

  ghost function LogStep(s: State, e: Event): Log
    requires Enabled(s, e)
  {
    match e
    case Add(time) => s.log.(added := s.log.added + [Task(time, |s.log.added|)])
    case StopAll(order) => s.log.(cancelled := s.log.cancelled + order)
    case Poll(Some(t)) => s.log.(started := s.log.started + [Start(t, s.now)])
    case Finish => s.log.(executed := s.log.executed + [s.worker.task])
    case _ => s.log
  }

  ghost predicate Next(s: State, s': State) {
    exists e :: Enabled(s, e) && s' == Apply(s, e)
  }

  ghost predicate Reachable(s: State) {
    Runs.Reachable(s, Init, Next)
  }

  function InCallback(w: Worker): multiset<Task> {
    if w.Running? then multiset{w.task} else multiset{}
  }

  /** Every added task has exactly one fate: executed, cancelled, running or pending. */
  ghost predicate FateOk(log: Log, worker: Worker, tasks: multiset<Task>) {
    multiset(log.added) == multiset(log.executed) + multiset(log.cancelled) + InCallback(worker) + tasks
  }

  ghost predicate NumbersOk(added: seq<Task>) {
    forall i :: 0 <= i < |added| ==> added[i].id == i
  }

  /** No callback begins early, and callbacks begin in the order of the clock. */
  ghost predicate StartsOk(started: seq<Start>, now: int) {
    && (forall i :: 0 <= i < |started| ==> started[i].task.time <= started[i].at <= now)
    && (forall i, j :: 0 <= i < j < |started| ==> started[i].at <= started[j].at)
  }

  /** The callbacks begun are those over and the one running. */
  ghost predicate BegunOk(log: Log, worker: Worker) {
    && |log.started| == |log.executed| + (if worker.Running? then 1 else 0)
    && (forall i :: 0 <= i < |log.executed| ==> log.executed[i] == log.started[i].task)
    && (worker.Running? ==> log.started[|log.started| - 1].task == worker.task)
  }

  /** A worker asleep without a pending notification will not oversleep a pending task. */
  ghost predicate SleepOk(tasks: multiset<Task>, worker: Worker, notified: bool) {
    worker.Sleeping? && !notified ==>
      forall u :: u in tasks ==> worker.until.Some? && worker.until.value < u.time
  }

  /** A worker that will test the flag before it sleeps again. */
  predicate OnItsWayOut(w: Worker, notified: bool) {
    w.NotStarted? || w.AtStop? || w.Exited? || (w.Sleeping? && notified)
  }

  /** Unless the last stop came during a callback, a stopped worker is on its way out. */
  ghost predicate StopOk(stop: bool, midCallback: bool, worker: Worker, notified: bool) {
    && (worker.Exited? ==> stop)
    && (stop && !midCallback ==> OnItsWayOut(worker, notified))
  }

  /** What is pending was added after the last stop; what was cancelled, or executed although the timer
      was stopped outside every callback, was added before. */
  ghost predicate LateOk(log: Log, tasks: multiset<Task>, atStop: nat, stopped: bool) {
    && atStop <= |log.added|
    && (forall t :: t in tasks ==> atStop <= t.id)
    && (forall t :: t in log.cancelled ==> t.id < atStop)
    && (stopped ==> forall t :: t in log.executed ==> t.id < atStop)
  }

  ghost predicate Inv(s: State) {
    && FateOk(s.log, s.worker, s.tasks) && NumbersOk(s.log.added)
    && StartsOk(s.log.started, s.now) && BegunOk(s.log, s.worker)
    && SleepOk(s.tasks, s.worker, s.notified)
    && StopOk(s.stop, s.midCallback, s.worker, s.notified)
    && LateOk(s.log, s.tasks, s.atStop, s.stop && !s.midCallback)
  }

  lemma FateKept(s: State, e: Event)
    requires FateOk(s.log, s.worker, s.tasks) && Enabled(s, e)
    ensures FateOk(LogStep(s, e), WorkerStep(s, e), TasksStep(s, e))
  {
    if e.Poll? && e.task.Some? {
      PollFate(s, e.task.value);
    } else if e.StopAll? {
      StopFate(s, e.order);
    } else if e.Add? || e.Finish? {
      assert e.Add? ==> WorkerStep(s, e) == s.worker;
    } else {
      assert InCallback(WorkerStep(s, e)) == InCallback(s.worker);
    }
  }

  lemma PollFate(s: State, t: Task)
    requires FateOk(s.log, s.worker, s.tasks) && Enabled(s, Poll(Some(t)))
    ensures FateOk(s.log, Running(t), s.tasks - multiset{t})
  {
    assert s.tasks == (s.tasks - multiset{t}) + multiset{t};
  }

  lemma StopFate(s: State, order: seq<Task>)
    requires FateOk(s.log, s.worker, s.tasks) && multiset(order) == s.tasks
    ensures FateOk(s.log.(cancelled := s.log.cancelled + order), s.worker, multiset{})
  {
    assert multiset(s.log.cancelled + order) == multiset(s.log.cancelled) + multiset(order);
  }

  lemma NumbersKept(s: State, e: Event)
    requires NumbersOk(s.log.added) && Enabled(s, e)
    ensures NumbersOk(LogStep(s, e).added)
  {
  }

  lemma StartsKept(s: State, e: Event)
    requires StartsOk(s.log.started, s.now) && Enabled(s, e)
    ensures StartsOk(LogStep(s, e).started, Apply(s, e).now)
  {
    if e.Poll? && e.task.Some? {
      assert LogStep(s, e).started == s.log.started + [Start(e.task.value, s.now)];
    } else {
      assert LogStep(s, e).started == s.log.started;
    }
  }

  lemma BegunKept(s: State, e: Event)
    requires BegunOk(s.log, s.worker) && Enabled(s, e)
    ensures BegunOk(LogStep(s, e), WorkerStep(s, e))
  {
  }

  lemma SleepKept(s: State, e: Event)
    requires SleepOk(s.tasks, s.worker, s.notified) && StopOk(s.stop, s.midCallback, s.worker, s.notified) && Enabled(s, e)
    ensures SleepOk(TasksStep(s, e), WorkerStep(s, e), NotifiedStep(s, e))
    ensures StopOk(s.stop || e.StopAll?, Apply(s, e).midCallback, WorkerStep(s, e), NotifiedStep(s, e))
  {
  }

  /** Every task with a fate was added. */
  lemma FatedWasAdded(log: Log, worker: Worker, tasks: multiset<Task>, t: Task)
    requires FateOk(log, worker, tasks) && NumbersOk(log.added)
    ensures t in log.added <==> t in log.executed || t in log.cancelled || t in InCallback(worker) || t in tasks
    ensures t in log.added ==> t.id < |log.added| && log.added[t.id] == t
  {
    assert t in multiset(log.added) <==> t in multiset(log.executed) + multiset(log.cancelled) + InCallback(worker) + tasks;
  }

  lemma LateKept(s: State, e: Event)
    requires LateOk(s.log, s.tasks, s.atStop, s.stop && !s.midCallback) && Enabled(s, e)
    requires FateOk(s.log, s.worker, s.tasks) && NumbersOk(s.log.added)
    requires StopOk(s.stop, s.midCallback, s.worker, s.notified)
    ensures var s' := Apply(s, e); LateOk(s'.log, s'.tasks, s'.atStop, s'.stop && !s'.midCallback)
  {
    if e.StopAll? {
      forall t | t in s.log.executed || t in s.tasks || t in s.log.cancelled ensures t.id < |s.log.added| {
        FatedWasAdded(s.log, s.worker, s.tasks, t);
      }
      forall t | t in e.order ensures t in s.tasks { assert t in multiset(e.order); }
    }
  }

  lemma ReachableInv(s: State)
    requires Reachable(s)
    ensures Inv(s)
  {
    forall s, s' | Inv(s) && Next(s, s') ensures Inv(s') {
      var e :| Enabled(s, e) && s' == Apply(s, e);
      FateKept(s, e);
      NumbersKept(s, e);
      StartsKept(s, e);
      BegunKept(s, e);
      SleepKept(s, e);
      LateKept(s, e);
    }
    Runs.ReachableInvariant(s, Init, Next, Inv);
  }

  lemma StepReachable(s: State, e: Event)
    requires Reachable(s) && Enabled(s, e)
    ensures Reachable(Apply(s, e))
  {
    assert Next(s, Apply(s, e));
    Runs.StepIsReachable(s, Apply(s, e), Init, Next);
  }

  // ---------- What every run guarantees ----------

  /** Added tasks are distinct, and each is executed, cancelled, running or pending, never two of these. */
  lemma EveryTaskOneFate(s: State)
    requires Reachable(s)
    ensures multiset(s.log.added) == multiset(s.log.executed) + multiset(s.log.cancelled) + InCallback(s.worker) + s.tasks
    ensures forall t :: multiset(s.log.executed)[t] + multiset(s.log.cancelled)[t] + InCallback(s.worker)[t] + s.tasks[t] <= 1
  {
    ReachableInv(s);
    forall t ensures multiset(s.log.executed)[t] + multiset(s.log.cancelled)[t] + InCallback(s.worker)[t] + s.tasks[t] <= 1 {
      CountedOnce(s.log.added, t);
      assert multiset(s.log.added)[t] ==
        (multiset(s.log.executed) + multiset(s.log.cancelled) + InCallback(s.worker) + s.tasks)[t];
    }
  }

  lemma {:induction false} CountedOnce(added: seq<Task>, t: Task)
    requires NumbersOk(added)
    ensures multiset(added)[t] <= 1 && (t.id >= |added| ==> multiset(added)[t] == 0)
  {
    if added != [] {
      var n := |added| - 1;
      assert added == added[..n] + [added[n]];
      CountedOnce(added[..n], t);
    }
  }

  /** A task that was added keeps the time it was added for. */
  lemma AddedIsKept(s: State, time: int, s': State)
    requires Enabled(s, Add(time)) && Runs.Follows(Apply(s, Add(time)), s', Next)
    ensures |s.log.added| < |s'.log.added| && s'.log.added[|s.log.added|] == Task(time, |s.log.added|)
  {
    var n := |s.log.added|;
    var inv := (x: State) => n < |x.log.added| && x.log.added[n] == Task(time, n);
    forall x, x' | inv(x) && Next(x, x') ensures inv(x') {
      var e :| Enabled(x, e) && x' == Apply(x, e);
      AddedGrows(x, e);
    }
    Runs.FollowsInvariant(Apply(s, Add(time)), s', Next, inv);
  }

  lemma AddedGrows(s: State, e: Event)
    requires Enabled(s, e)
    ensures s.log.added <= Apply(s, e).log.added
  {
  }

  /** The worker's own steps. */
  ghost predicate WorkerNext(s: State, s': State) {
    exists e :: Enabled(s, e) && !e.Add? && !e.StopAll? && !e.Tick? && s' == Apply(s, e)
  }

  lemma WorkerStepTo(from: State, s: State, e: Event) returns (s': State)
    requires Runs.Follows(from, s, WorkerNext) && Enabled(s, e) && !e.Add? && !e.StopAll? && !e.Tick?
    ensures Runs.Follows(from, s', WorkerNext) && s' == Apply(s, e)
  {
    s' := Apply(s, e);
    assert WorkerNext(s, s');
    Runs.FollowsStep(from, s, s', WorkerNext);
  }

  /** As long as the timer is not stopped, a worker outside every callback comes by its own steps to begin
      the earliest task, once that is due. */
  lemma DueTaskCanBegin(s: State, t: Task) returns (s': State)
    requires Reachable(s) && !s.stop && !s.worker.Running? && Earliest(t, s.tasks) && t.time <= s.now
    ensures Runs.Follows(s, s', WorkerNext) && s'.worker == Running(t) && s'.tasks == s.tasks - multiset{t}
  {
    ReachableInv(s);
    Runs.FollowsItself(s, WorkerNext);
    s' := ToStopTest(s, t);
    if s'.worker.AtStop? { s' := WorkerStepTo(s, s', TestStop); }
    s' := WorkerStepTo(s, s', Poll(Some(t)));
  }

  lemma ToStopTest(s: State, t: Task) returns (s': State)
    requires !s.stop && !s.worker.Running? && !s.worker.Exited? && Earliest(t, s.tasks) && t.time <= s.now
    ensures Runs.Follows(s, s', WorkerNext) && (s'.worker.AtStop? || s'.worker.AtTasks?)
    ensures s'.tasks == s.tasks && s'.now == s.now && !s'.stop
  {
    Runs.FollowsItself(s, WorkerNext);
    s' := s;
    match s.worker
    case NotStarted => s' := WorkerStepTo(s, s, Begin);
    case Sleeping(_) => s' := WorkerStepTo(s, s, Wake);
    case AtSleep => s' := WorkerStepTo(s, s, Sleep(Some(t)));
    case _ =>
  }

  /** No callback begins before its time; begins follow the clock; at most one runs at a time. */
  lemma CallbacksOnTime(s: State)
    requires Reachable(s)
    ensures forall i :: 0 <= i < |s.log.started| ==> s.log.started[i].task.time <= s.log.started[i].at <= s.now
    ensures forall i, j :: 0 <= i < j < |s.log.started| ==> s.log.started[i].at <= s.log.started[j].at
    ensures |s.log.executed| <= |s.log.started| <= |s.log.executed| + 1
  {
    ReachableInv(s);
  }

  /** A task is begun only when no pending task is earlier, and what is begun was pending. */
  lemma BeginsEarliest(s: State, e: Event)
    requires Reachable(s) && Enabled(s, e) && LogStep(s, e).started != s.log.started
    ensures WorkerStep(s, e).Running?
    ensures var t := WorkerStep(s, e).task;
      t in s.tasks && t.time <= s.now && forall u :: u in s.tasks ==> t.time <= u.time
  {
  }

  /** An unnotified sleeper with pending tasks sleeps no longer than until just before the first. */
  lemma NeverOversleeps(s: State, u: Task)
    requires Reachable(s) && s.worker.Sleeping? && u in s.tasks
    ensures s.notified || (s.worker.until.Some? && s.worker.until.value < u.time)
  {
    ReachableInv(s);
  }

  // ---------- Stopping ----------

  /** A worker that has left leaves pending exactly the tasks added after the last stop that it did not
      itself run on its way out; it ran none of them unless that stop came during a callback. */
  lemma ExitedLeavesLateTasks(s: State, t: Task)
    requires Reachable(s) && s.worker.Exited?
    ensures s.atStop <= |s.log.added|
    ensures t in s.tasks <==> t in s.log.added[s.atStop..] && t !in s.log.executed
    ensures !s.midCallback ==> (t in s.tasks <==> t in s.log.added[s.atStop..])
  {
    ReachableInv(s);
    EveryTaskOneFate(s);
    FatedWasAdded(s.log, s.worker, s.tasks, t);
    assert multiset(s.log.executed)[t] + s.tasks[t] <= 1;
    if t in s.log.added && s.atStop <= t.id {
      assert s.log.added[s.atStop..][t.id - s.atStop] == t;
    }
    if t in s.log.added[s.atStop..] {
      var i :| 0 <= i < |s.log.added[s.atStop..]| && s.log.added[s.atStop..][i] == t;
      assert s.log.added[s.atStop + i] == t;
    }
  }

  /** Such tasks get neither a callback nor a cancellation, whatever follows but another stop. */
  lemma ExitedForGood(s: State, e: Event)
    requires Enabled(s, e) && s.worker.Exited? && !e.StopAll?
    ensures Apply(s, e).worker.Exited? && s.tasks <= Apply(s, e).tasks
    ensures Apply(s, e).log.executed == s.log.executed && Apply(s, e).log.cancelled == s.log.cancelled
  {
  }

  /** `add_task` does not test the flag: a task can be left behind. */
  lemma TaskLeftBehind(time: int) returns (s: State)
    ensures Reachable(s) && s.worker.Exited? && s.tasks == multiset{Task(time, 0)}
  {
    Runs.InitialIsReachable(START, Init, Next);
    s := Do(START, StopAll([]));
    s := Do(s, Begin);
    s := Do(s, TestStop);
    s := Do(s, Add(time));
  }

  /** The worker sleeps without a deadline or a pending notification although the timer was stopped. */
  ghost predicate StopMissed(s: State) {
    s.stop && s.worker == Sleeping(None) && !s.notified
  }

  /** That happens only if the last stop came during a callback. */
  lemma MissedOnlyMidCallback(s: State)
    requires Reachable(s) && StopMissed(s)
    ensures s.midCallback
  {
    ReachableInv(s);
  }

  ghost predicate NextButStop(s: State, s': State) {
    exists e :: Enabled(s, e) && !e.StopAll? && s' == Apply(s, e)
  }

  /** A stop can be missed exactly if it comes during a callback. */
  lemma StopMissedIff(s: State, order: seq<Task>)
    requires Reachable(s) && Enabled(s, StopAll(order))
    ensures (exists s' :: Runs.Follows(Apply(s, StopAll(order)), s', NextButStop) && StopMissed(s')) <==> s.worker.Running?
  {
    var from := Apply(s, StopAll(order));
    if s.worker.Running? {
      var s' := MissTheStop(s, order);
    } else if s' :| Runs.Follows(from, s', NextButStop) && StopMissed(s') {
      LeavesForGood(from, s');
    }
  }

  lemma LeavesForGood(from: State, s: State)
    requires Leaving(from) && Runs.Follows(from, s, NextButStop)
    ensures Leaving(s)
  {
    forall x, x' | Leaving(x) && NextButStop(x, x') ensures Leaving(x') {
      var e :| Enabled(x, e) && !e.StopAll? && x' == Apply(x, e);
      LeavingStep(x, e);
    }
    Runs.FollowsInvariant(from, s, NextButStop, Leaving);
  }

  lemma LeavingStep(s: State, e: Event)
    requires Leaving(s) && Enabled(s, e) && !e.StopAll?
    ensures Leaving(Apply(s, e))
  {
  }

  ghost predicate Leaving(s: State) {
    s.stop && OnItsWayOut(s.worker, s.notified)
  }

  /** Left alone, the worker finishes the callback, finds no task and goes to sleep. */
  lemma MissTheStop(s: State, order: seq<Task>) returns (s': State)
    requires s.worker.Running? && Enabled(s, StopAll(order))
    ensures Runs.Follows(Apply(s, StopAll(order)), s', NextButStop) && StopMissed(s')
    ensures s'.log.cancelled == s.log.cancelled + order && s'.now == s.now
  {
    var from := Apply(s, StopAll(order));
    Runs.FollowsItself(from, NextButStop);
    s' := Go(from, from, Finish);
    s' := Go(from, s', Poll(None));
    s' := Go(from, s', Sleep(None));
  }

  lemma Go(from: State, s: State, e: Event) returns (s': State)
    requires Runs.Follows(from, s, NextButStop) && Enabled(s, e) && !e.StopAll?
    ensures Runs.Follows(from, s', NextButStop) && s' == Apply(s, e)
  {
    s' := Apply(s, e);
    assert NextButStop(s, s');
    Runs.FollowsStep(from, s, s', NextButStop);
  }

  lemma Do(s: State, e: Event) returns (s': State)
    requires Reachable(s) && Enabled(s, e)
    ensures Reachable(s') && s' == Apply(s, e)
  {
    s' := Apply(s, e);
    StepReachable(s, e);
  }

  // ---------- The timer as an object, one method per critical section ----------

  lemma {:induction false} SomeEarliest(tasks: multiset<Task>) returns (t: Task)
    requires tasks != multiset{}
    ensures Earliest(t, tasks)
    decreases |tasks|
  {
    t :| t in tasks;
    var first, rest := t, tasks - multiset{t};
    forall v | v in tasks ensures v == first || v in rest {
      if v != first { assert rest[v] == tasks[v]; }
    }
    if rest != multiset{} {
      var u := SomeEarliest(rest);
      if u.time < t.time { t := u; }
    }
  }

  class Timer {
    var m_tasks: multiset<Task>
    var m_stop: bool
    var worker: Worker
    var notified: bool
    var now: int
    var log: Log
    ghost var midCallback: bool
    ghost var atStop: nat

    ghost function View(): State
      reads this
    {
      State(m_tasks, m_stop, worker, notified, now, log, midCallback, atStop)
    }

    ghost predicate Valid()
      reads this
    {
      Reachable(View())
    }

    constructor ()
      ensures Valid() && View() == START
      ensures m_tasks == multiset{} && !m_stop && worker == NotStarted && log.added == []
    {
      m_tasks, m_stop, worker, notified, now := multiset{}, false, NotStarted, false, 0;
      log, midCallback, atStop := Log([], [], [], []), false, 0;
      new;
      Runs.InitialIsReachable(View(), Init, Next);
    }

    /** `m_tasks.top()`: a task with no earlier one. */
    method Top() returns (t: Task)
      requires m_tasks != multiset{}
      ensures Earliest(t, m_tasks)
    {
      ghost var u := SomeEarliest(m_tasks);
      t :| t in m_tasks && forall u :: u in m_tasks ==> t.time <= u.time;
    }

    method AddTask(time: int)
      requires Valid() && Unlocked(worker)
      modifies this
      ensures Valid() && View() == Apply(old(View()), Add(time))
      ensures var s := old(View()); var t := Task(time, |s.log.added|);
        View() == s.(tasks := s.tasks + multiset{t}, log := s.log.(added := s.log.added + [t]),
                     notified := s.notified || s.worker.Sleeping?)
    {
      StepReachable(View(), Add(time));
      var t := Task(time, |log.added|);
      m_tasks, log, notified := m_tasks + multiset{t}, log.(added := log.added + [t]), notified || worker.Sleeping?;
    }

    /** The loop of `stop`: take the top until nothing is left. */
    method CancelPending() returns (order: seq<Task>)
      modifies this`m_tasks
      ensures m_tasks == multiset{} && multiset(order) == old(m_tasks) && Sorted(order)
    {
      order := [];
      while m_tasks != multiset{}
        invariant multiset(order) + m_tasks == old(m_tasks) && Sorted(order)
        invariant forall i, u :: 0 <= i < |order| && u in m_tasks ==> order[i].time <= u.time
        decreases |m_tasks|
      {
        var t := Top();
        assert m_tasks == (m_tasks - multiset{t}) + multiset{t};
        order := order + [t];
        m_tasks := m_tasks - multiset{t};
      }
    }

    /** `stop`: every pending task is handed to its cancellation, earliest first. */
    method Stop() returns (order: seq<Task>)
      requires Valid() && Unlocked(worker)
      modifies this
      ensures Valid() && multiset(order) == old(m_tasks) && Sorted(order)
      ensures View() == Apply(old(View()), StopAll(order))
      ensures m_tasks == multiset{} && m_stop
      ensures var s := old(View()); View() == s.(tasks := multiset{}, stop := true, log := s.log.(cancelled := s.log.cancelled + order),
        notified := s.notified || s.worker.Sleeping?, midCallback := s.worker.Running?, atStop := |s.log.added|)
    {
      order := CancelPending();
      StepReachable(old(View()), StopAll(order));
      log := log.(cancelled := log.cancelled + order);
      midCallback, atStop := worker.Running?, |log.added|;
      m_stop, notified := true, notified || worker.Sleeping?;
    }

    method Advance(d: nat)
      requires Valid()
      modifies this
      ensures Valid() && View() == Apply(old(View()), Tick(d))
      ensures var s := old(View()); View() == s.(now := s.now + d)
    {
      StepReachable(View(), Tick(d));
      now := now + d;
    }

    /** The worker's steps that only move it within `run`. */
    method TestStopFlag()
      requires Valid() && (worker.NotStarted? || worker.AtStop? || worker.Sleeping?)
      modifies this
      ensures Valid()
      ensures View() == Apply(old(View()),
        if old(worker.NotStarted?) then Begin else if old(worker.AtStop?) then TestStop else Wake)
      ensures var s := old(View());
        View() == if s.worker.NotStarted? then s.(worker := AtStop)
                  else if s.worker.AtStop? then s.(worker := if s.stop then Exited else AtTasks)
                  else s.(worker := AtStop, notified := false)
    {
      if worker.NotStarted? {
        StepReachable(View(), Begin);
        worker := AtStop;
      } else if worker.AtStop? {
        StepReachable(View(), TestStop);
        worker := if m_stop then Exited else AtTasks;
      } else {
        StepReachable(View(), Wake);
        worker, notified := AtStop, false;
      }
    }

    /** The earliest task, if its time has come. */
    method DueTask() returns (task: Option<Task>)
      ensures task.Some? ==> Earliest(task.value, m_tasks) && task.value.time <= now
      ensures task.None? ==> forall u :: u in m_tasks ==> u.time > now
    {
      task := None;
      if m_tasks != multiset{} {
        var t := Top();
        if t.time <= now { task := Some(t); }
      }
    }

    /** The inner loop test: take the earliest task if it is due. */
    method PollTask() returns (task: Option<Task>)
      requires Valid() && worker.AtTasks?
      modifies this
      ensures Valid() && old(Enabled(View(), Poll(task))) && View() == Apply(old(View()), Poll(task))
      ensures task.None? ==> var s := old(View()); View() == s.(worker := AtSleep) && forall u :: u in s.tasks ==> u.time > s.now
      ensures task.Some? ==> old(Earliest(task.value, m_tasks)) && task.value.time <= now
      ensures task.Some? ==> var s := old(View()); View() == s.(tasks := s.tasks - multiset{task.value}, worker := Running(task.value),
        log := s.log.(started := s.log.started + [Start(task.value, s.now)]))
    {
      task := DueTask();
      StepReachable(View(), Poll(task));
      if task.None? {
        worker := AtSleep;
      } else {
        m_tasks, worker := m_tasks - multiset{task.value}, Running(task.value);
        log := log.(started := log.started + [Start(task.value, now)]);
      }
    }

    method FinishCallback()
      requires Valid() && worker.Running?
      modifies this
      ensures Valid() && View() == Apply(old(View()), Finish)
      ensures var s := old(View()); View() == s.(log := s.log.(executed := s.log.executed + [s.worker.task]), worker := AtTasks)
    {
      StepReachable(View(), Finish);
      log, worker := log.(executed := log.executed + [worker.task]), AtTasks;
    }

    /** Behind the inner loop: wait for a notification, or until just before the earliest task. */
    method WaitForWork() returns (first: Option<Task>)
      requires Valid() && worker.AtSleep?
      modifies this
      ensures Valid() && old(Enabled(View(), Sleep(first))) && View() == Apply(old(View()), Sleep(first))
      ensures first.None? <==> m_tasks == multiset{}
      ensures first.Some? ==> Earliest(first.value, m_tasks)
      ensures var s := old(View()); View() == s.(notified := false, worker := if first.None? then Sleeping(None)
        else if first.value.time > s.now then Sleeping(Some(first.value.time - 1)) else AtStop)
    {
      first := None;
      if m_tasks != multiset{} {
        var t := Top();
        first := Some(t);
      }
      StepReachable(View(), Sleep(first));
      notified := false;
      if first.None? {
        worker := Sleeping(None);
      } else {
        worker := if first.value.time > now then Sleeping(Some(first.value.time - 1)) else AtStop;
      }
    }
  }
}
