/** `LooperSchedulerRunner`: a queue of coroutine handles under one mutex, a worker that resumes
    them in order, and `stop`. Accepted handles are numbered in the order of their submission. */
module Loopers {
  import Runs

  datatype Worker =
    | NotStarted
    | AtStop            // holds the mutex, about to test m_stop
    | AtTasks           // holds the mutex, at the inner loop test
    | Running(h: nat)   // resumes a handle, without the mutex
    | Sleeping
    | Exited

  /** Accepted handles, handles taken by the worker, handles destroyed by `stop`. */
  datatype Log = Log(accepted: nat, taken: seq<nat>, destroyed: seq<nat>)

  datatype State = State(
    tasks: seq<nat>, stop: bool, worker: Worker, notified: bool,
    log: Log, midTask: bool)  // history; whether the last stop came while a handle was being resumed

  datatype Event = Submit | StopAll | Begin | TestStop | Poll | Finish | Wake

  const START := State([], false, NotStarted, false, Log(0, [], []), false)

  ghost predicate Init(s: State) {
    s == START
  }

  predicate Unlocked(w: Worker) {
    !w.AtStop? && !w.AtTasks?
  }

  predicate Enabled(s: State, e: Event) {
    match e
    case Submit => Unlocked(s.worker)
    case StopAll => Unlocked(s.worker)
    case Begin => s.worker.NotStarted?
    case TestStop => s.worker.AtStop?
    case Poll => s.worker.AtTasks?
    case Finish => s.worker.Running?
    case Wake => s.worker.Sleeping?
  }

  function Apply(s: State, e: Event): State
    requires Enabled(s, e)
  {
    match e
    case Submit =>
      if s.stop then s
      else s.(tasks := s.tasks + [s.log.accepted], log := s.log.(accepted := s.log.accepted + 1),
              notified := s.notified || s.worker.Sleeping?)
    case StopAll =>
      s.(tasks := [], stop := true, log := s.log.(destroyed := s.log.destroyed + s.tasks),
         notified := s.notified || s.worker.Sleeping?, midTask := s.worker.Running?)
    case Begin => s.(worker := AtStop)
    case TestStop => s.(worker := if s.stop then Exited else AtTasks)
    case Poll =>
      if s.tasks == [] then s.(worker := Sleeping, notified := false)  // cv.wait
      else s.(tasks := s.tasks[1..], worker := Running(s.tasks[0]), log := s.log.(taken := s.log.taken + [s.tasks[0]]))
    case Finish => s.(worker := AtTasks)
    case Wake => s.(worker := AtStop, notified := false)
  }

  ghost predicate Next(s: State, s': State) {
    exists e :: Enabled(s, e) && s' == Apply(s, e)
  }

  ghost predicate Reachable(s: State) {
    Runs.Reachable(s, Init, Next)
  }

  function Upto(n: nat): seq<nat> {
    seq(n, i requires 0 <= i < n => i)
  }

  /** A worker that will test the flag before it sleeps again. */
  predicate OnItsWayOut(w: Worker, notified: bool) {
    w.NotStarted? || w.AtStop? || w.Exited? || (w.Sleeping? && notified)
  }

  ghost predicate Inv(s: State) {
    && Upto(s.log.accepted) == s.log.taken + s.log.destroyed + s.tasks
    && (if s.stop then s.tasks == [] else s.log.destroyed == [])
    && (s.worker.Sleeping? && s.tasks != [] ==> s.notified)
    && (s.worker.Exited? ==> s.stop)
    && (s.stop && !s.midTask ==> OnItsWayOut(s.worker, s.notified))
  }

  lemma StepKeepsInv(s: State, e: Event)
    requires Inv(s) && Enabled(s, e)
    ensures Inv(Apply(s, e))
  {
    if e.Submit? && !s.stop {
      assert Upto(s.log.accepted + 1) == Upto(s.log.accepted) + [s.log.accepted];
    }
  }

  lemma ReachableInv(s: State)
    requires Reachable(s)
    ensures Inv(s)
  {
    forall s, s' | Inv(s) && Next(s, s') ensures Inv(s') {
      var e :| Enabled(s, e) && s' == Apply(s, e);
      StepKeepsInv(s, e);
    }
    Runs.ReachableInvariant(s, Init, Next, Inv);
  }

  lemma StepReachable(s: State, e: Event)
    requires Reachable(s) && Enabled(s, e)
    ensures Reachable(Apply(s, e))
  {
    assert Next(s, Apply(s, e));
    Runs.StepIsReachable(s, Apply(s, e), Init, Next);
  }

  // ---------- What every run guarantees ----------

  /** The accepted handles, in submission order, are those taken by the worker followed by those
      destroyed by `stop` followed by those still queued. */
  lemma EveryHandleOneFate(s: State)
    requires Reachable(s)
    ensures Upto(s.log.accepted) == s.log.taken + s.log.destroyed + s.tasks
    ensures s.stop ==> s.tasks == []
  {
    ReachableInv(s);
  }

  /** A handle submitted to a looper that is not stopped is never dropped: it is taken, destroyed by a
      `stop`, or queued. */
  lemma SubmittedIsKept(s: State, s': State)
    requires Reachable(s) && !s.stop && Enabled(s, Submit) && Runs.Follows(Apply(s, Submit), s', Next)
    ensures s.log.accepted in s'.log.taken + s'.log.destroyed + s'.tasks
    ensures Apply(s, Submit).tasks == s.tasks + [s.log.accepted]
  {
    StepReachable(s, Submit);
    var inv := (x: State) => Inv(x) && s.log.accepted < x.log.accepted;
    ReachableInv(Apply(s, Submit));
    forall x, x' | inv(x) && Next(x, x') ensures inv(x') {
      var e :| Enabled(x, e) && x' == Apply(x, e);
      StepKeepsInv(x, e);
    }
    Runs.FollowsInvariant(Apply(s, Submit), s', Next, inv);
    assert Upto(s'.log.accepted)[s.log.accepted] == s.log.accepted;
  }

  /** The worker's own steps. */
  ghost predicate WorkerNext(s: State, s': State) {
    exists e :: Enabled(s, e) && !e.Submit? && !e.StopAll? && s' == Apply(s, e)
  }

  lemma WorkerStepTo(from: State, s: State, e: Event) returns (s': State)
    requires Runs.Follows(from, s, WorkerNext) && Enabled(s, e) && !e.Submit? && !e.StopAll?
    ensures Runs.Follows(from, s', WorkerNext) && s' == Apply(s, e)
  {
    s' := Apply(s, e);
    assert WorkerNext(s, s');
    Runs.FollowsStep(from, s, s', WorkerNext);
  }

  /** As long as the looper is not stopped, a worker that resumes nothing comes by its own steps to
      resume the front of the queue. */
  lemma FrontCanRun(s: State) returns (s': State)
    requires Reachable(s) && !s.stop && !s.worker.Running? && s.tasks != []
    ensures Runs.Follows(s, s', WorkerNext) && s'.worker == Running(s.tasks[0]) && s'.tasks == s.tasks[1..]
  {
    ReachableInv(s);
    Runs.FollowsItself(s, WorkerNext);
    s' := s;
    if s'.worker.NotStarted? { s' := WorkerStepTo(s, s', Begin); }
    if s'.worker.Sleeping? { s' := WorkerStepTo(s, s', Wake); }
    if s'.worker.AtStop? { s' := WorkerStepTo(s, s', TestStop); }
    s' := WorkerStepTo(s, s', Poll);
  }

  /** No lost wake-up: a worker asleep beside a non-empty queue has a notification pending. */
  lemma SleeperIsNotified(s: State)
    requires Reachable(s) && s.worker.Sleeping? && s.tasks != []
    ensures s.notified
  {
    ReachableInv(s);
  }

  /** The worker sleeps without a pending notification although the looper was stopped. */
  ghost predicate StopMissed(s: State) {
    s.stop && s.worker.Sleeping? && !s.notified
  }

  /** That happens only if the last stop came while a handle was resumed. */
  lemma MissedOnlyMidTask(s: State)
    requires Reachable(s) && StopMissed(s)
    ensures s.midTask
  {
    ReachableInv(s);
  }

  ghost predicate NextButStop(s: State, s': State) {
    exists e :: Enabled(s, e) && !e.StopAll? && s' == Apply(s, e)
  }

  /** A stop can be missed exactly if it comes while a handle is resumed. */
  lemma StopMissedIff(s: State)
    requires Reachable(s) && Enabled(s, StopAll)
    ensures (exists s' :: Runs.Follows(Apply(s, StopAll), s', NextButStop) && StopMissed(s')) <==> s.worker.Running?
  {
    var from := Apply(s, StopAll);
    if s.worker.Running? {
      StopMidTaskIsMissed(s);
    } else if s' :| Runs.Follows(from, s', NextButStop) && StopMissed(s') {
      forall x, x' | Leaving(x) && NextButStop(x, x') ensures Leaving(x') {
        var e :| Enabled(x, e) && !e.StopAll? && x' == Apply(x, e);
      }
      Runs.FollowsInvariant(from, s', NextButStop, Leaving);
    }
  }

  ghost predicate Leaving(s: State) {
    s.stop && OnItsWayOut(s.worker, s.notified)
  }

  /** Left alone, the worker goes from such a stop straight to a sleep that nobody will end. */
  lemma StopMidTaskIsMissed(s: State)
    requires s.worker.Running?
    ensures var s' := Apply(Apply(Apply(s, StopAll), Finish), Poll);
      Runs.Follows(Apply(s, StopAll), s', NextButStop) && StopMissed(s')
  {
    var from := Apply(s, StopAll);
    Runs.FollowsItself(from, NextButStop);
    assert NextButStop(from, Apply(from, Finish));
    Runs.FollowsStep(from, from, Apply(from, Finish), NextButStop);
    assert NextButStop(Apply(from, Finish), Apply(Apply(from, Finish), Poll));
    Runs.FollowsStep(from, Apply(from, Finish), Apply(Apply(from, Finish), Poll), NextButStop);
  }

  // ---------- The looper as an object, one method per critical section ----------

  class LooperSchedulerRunner {
    var m_tasks: seq<nat>
    var m_stop: bool
    var worker: Worker
    var notified: bool
    var log: Log
    ghost var midTask: bool

    ghost function View(): State
      reads this
    {
      State(m_tasks, m_stop, worker, notified, log, midTask)
    }

    ghost predicate Valid()
      reads this
    {
      Reachable(View())
    }

    constructor ()
      ensures Valid() && View() == START
      ensures m_tasks == [] && !m_stop && worker == NotStarted && log.accepted == 0
    {
      m_tasks, m_stop, worker, notified, log, midTask := [], false, NotStarted, false, Log(0, [], []), false;
      new;
      Runs.InitialIsReachable(View(), Init, Next);
    }

    method SubmitHandle() returns (accepted: bool)
      requires Valid() && Unlocked(worker)
      modifies this
      ensures Valid() && View() == Apply(old(View()), Submit) && accepted == !m_stop
      ensures !accepted ==> View() == old(View())
      ensures accepted ==> var s := old(View()); var h := s.log.accepted;
        View() == s.(tasks := s.tasks + [h], log := s.log.(accepted := h + 1), notified := s.notified || s.worker.Sleeping?)
    {
      StepReachable(View(), Submit);
      accepted := !m_stop;
      if accepted {
        m_tasks, log := m_tasks + [log.accepted], log.(accepted := log.accepted + 1);
        notified := notified || worker.Sleeping?;
      }
    }

    /** `stop`: the queued handles are destroyed one by one, front first. */
    method Stop()
      requires Valid() && Unlocked(worker)
      modifies this
      ensures Valid() && View() == Apply(old(View()), StopAll)
      ensures var s := old(View()); View() == s.(tasks := [], stop := true, log := s.log.(destroyed := s.log.destroyed + s.tasks),
        notified := s.notified || s.worker.Sleeping?, midTask := s.worker.Running?)
    {
      StepReachable(View(), StopAll);
      m_stop := true;
      ghost var was := log.destroyed;
      while m_tasks != []
        invariant log == old(log).(destroyed := log.destroyed)
        invariant log.destroyed + m_tasks == was + old(m_tasks)
        invariant m_stop && worker == old(worker) && notified == old(notified) && midTask == old(midTask)
        decreases |m_tasks|
      {
        log := log.(destroyed := log.destroyed + [m_tasks[0]]);
        m_tasks := m_tasks[1..];
      }
      midTask := worker.Running?;
      notified := notified || worker.Sleeping?;
    }

    /** The worker's steps between its two loops. */
    method OuterStep()
      requires Valid() && (worker.NotStarted? || worker.AtStop? || worker.Running? || worker.Sleeping?)
      modifies this
      ensures Valid()
      ensures old(worker).NotStarted? ==> View() == Apply(old(View()), Begin)
      ensures old(worker).AtStop? ==> View() == Apply(old(View()), TestStop)
      ensures old(worker).Running? ==> View() == Apply(old(View()), Finish)
      ensures old(worker).Sleeping? ==> View() == Apply(old(View()), Wake)
      ensures var s := old(View());
        View() == if s.worker.NotStarted? then s.(worker := AtStop)
                  else if s.worker.AtStop? then s.(worker := if s.stop then Exited else AtTasks)
                  else if s.worker.Running? then s.(worker := AtTasks)
                  else s.(worker := AtStop, notified := false)
    {
      match worker
      case NotStarted =>
        StepReachable(View(), Begin);
        worker := AtStop;
      case AtStop =>
        StepReachable(View(), TestStop);
        worker := if m_stop then Exited else AtTasks;
      case Running(_) =>
        StepReachable(View(), Finish);
        worker := AtTasks;
      case Sleeping =>
        StepReachable(View(), Wake);
        worker, notified := AtStop, false;
    }

    /** The inner loop test: pop the front and leave the mutex to resume it, or wait. */
    method PollHandle() returns (popped: bool)
      requires Valid() && worker.AtTasks?
      modifies this
      ensures Valid() && View() == Apply(old(View()), Poll) && popped == (old(m_tasks) != [])
      ensures !popped ==> var s := old(View()); View() == s.(worker := Sleeping, notified := false)
      ensures popped ==> var s := old(View()); View() == s.(tasks := s.tasks[1..], worker := Running(s.tasks[0]), log := s.log.(taken := s.log.taken + [s.tasks[0]]))
    {
      StepReachable(View(), Poll);
      popped := m_tasks != [];
      if popped {
        worker, log := Running(m_tasks[0]), log.(taken := log.taken + [m_tasks[0]]);
        m_tasks := m_tasks[1..];
      } else {
        worker, notified := Sleeping, false;
      }
    }
  }
}
