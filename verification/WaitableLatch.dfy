/** `WaitablePromiseBase` over `waitable_atomic`: any number of threads block in `wait` until the
    promise is valid. Going to sleep compares the word in the same step, as a futex does. */
module WaitableLatches {
  import opened Options
  import opened Outcomes
  import Runs

  datatype Waiter =
    | AtLoad     // about to load the word, spinning or in the outer loop
    | AtSleep    // saw it unset, about to compare and sleep
    | Asleep
    | Returned

  /** The coroutine that computes the outcome; from its final suspension on it stores the word, notifies
      and reads the caller's handle, all of them in its own promise. */
  datatype Setter = Computing | AtStore | AtNotify | AtCaller | Through

  datatype State = State(word: bool, outcome: Option<Outcome>, setter: Setter, waiters: seq<Waiter>)

  datatype Event =
    | Complete(r: Outcome) | StoreWord | NotifyAll | LoadCaller
    | Load(w: nat) | CompareSleep(w: nat) | WakeSpuriously(w: nat)

  function Start(n: nat): State {
    State(false, None, Computing, seq(n, i => AtLoad))
  }

  ghost predicate Init(s: State) {
    exists n: nat :: s == Start(n)
  }

  predicate Enabled(s: State, e: Event) {
    match e
    case Complete(_) => s.setter.Computing?
    case StoreWord => s.setter.AtStore?
    case NotifyAll => s.setter.AtNotify?
    case LoadCaller => s.setter.AtCaller?
    case Load(w) => w < |s.waiters| && s.waiters[w].AtLoad?
    case CompareSleep(w) => w < |s.waiters| && s.waiters[w].AtSleep?
    case WakeSpuriously(w) => w < |s.waiters| && s.waiters[w].Asleep?
  }

  function WakeAll(ws: seq<Waiter>): seq<Waiter> {
    seq(|ws|, i requires 0 <= i < |ws| => if ws[i].Asleep? then AtLoad else ws[i])
  }

  function Apply(s: State, e: Event): State
    requires Enabled(s, e)
  {
    match e
    case Complete(r) => s.(outcome := Some(r), setter := AtStore)
    case StoreWord => s.(word := true, setter := AtNotify)
    case NotifyAll => s.(setter := AtCaller, waiters := WakeAll(s.waiters))
    case LoadCaller => s.(setter := Through)
    case Load(w) => s.(waiters := s.waiters[w := if s.word then Returned else AtSleep])
    case CompareSleep(w) => s.(waiters := s.waiters[w := if s.word then AtLoad else Asleep])
    case WakeSpuriously(w) => s.(waiters := s.waiters[w := AtLoad])
  }

  ghost predicate Next(s: State, s': State) {
    exists e :: Enabled(s, e) && s' == Apply(s, e)
  }

  ghost predicate Reachable(s: State) {
    Runs.Reachable(s, Init, Next)
  }

  predicate Notified(setter: Setter) {
    setter.AtCaller? || setter.Through?
  }

  ghost predicate Inv(s: State) {
    && (s.word <==> s.setter.AtNotify? || s.setter.AtCaller? || s.setter.Through?)
    && (s.outcome.Some? <==> !s.setter.Computing?)
    && (forall w :: 0 <= w < |s.waiters| && s.waiters[w].Returned? ==> s.word)
    && (forall w :: 0 <= w < |s.waiters| && s.waiters[w].Asleep? ==> !Notified(s.setter))
  }

  lemma ReachableInv(s: State)
    requires Reachable(s)
    ensures Inv(s)
  {
    forall s, s' | Inv(s) && Next(s, s') ensures Inv(s') {
      var e :| Enabled(s, e) && s' == Apply(s, e);
    }
    Runs.ReachableInvariant(s, Init, Next, Inv);
  }

  lemma StepReachable(s: State, e: Event)
    requires Reachable(s) && Enabled(s, e)
    ensures Reachable(Apply(s, e))
  {
    assert Next(s, Apply(s, e));
    Runs.StepIsReachable(s, Apply(s, e), Init, Next);
  }

  /** `wait` returns only after the value or the exception was stored; once `set_valid` is over
      nobody sleeps, and a thread that sleeps before that has the notification still to come. */
  lemma WaitersSeeTheOutcome(s: State, w: nat)
    requires Reachable(s) && w < |s.waiters|
    ensures s.waiters[w].Returned? ==> s.word && s.outcome.Some?
    ensures s.waiters[w].Asleep? ==> !Notified(s.setter)
    ensures Notified(s.setter) && s.waiters[w].AtSleep? ==> Apply(s, CompareSleep(w)).waiters[w].AtLoad?
  {
    ReachableInv(s);
  }

  /** What the coroutine gave is what every waiter finds. */
  lemma OutcomeIsKept(s: State, r: Outcome, s': State)
    requires Enabled(s, Complete(r)) && Runs.Follows(Apply(s, Complete(r)), s', Next)
    ensures s'.outcome == Some(r)
  {
    var inv := (x: State) => x.outcome == Some(r) && !x.setter.Computing?;
    forall x, x' | inv(x) && Next(x, x') ensures inv(x') {
      var e :| Enabled(x, e) && x' == Apply(x, e);
    }
    Runs.FollowsInvariant(Apply(s, Complete(r)), s', Next, inv);
  }

  /** The protocol comes to rest exactly when the promise is set and everybody has returned: no
      waiter needs a spurious wake-up to get there. */
  lemma RestsWhenAllReturned(s: State, r: Outcome)
    requires Reachable(s)
    ensures (forall e :: Enabled(s, e) ==> e.WakeSpuriously?) <==>
      s.setter.Through? && forall w :: 0 <= w < |s.waiters| ==> s.waiters[w].Returned?
  {
    ReachableInv(s);
    if forall e :: Enabled(s, e) ==> e.WakeSpuriously? {
      assert !Enabled(s, Complete(r)) && !Enabled(s, StoreWord) && !Enabled(s, NotifyAll) && !Enabled(s, LoadCaller);
      forall w | 0 <= w < |s.waiters| ensures s.waiters[w].Returned? {
        assert !Enabled(s, Load(w)) && !Enabled(s, CompareSleep(w));
      }
    }
  }

  // ---------- Can the final suspension outlive the promise? ----------

  /** The setter has accesses of its promise left to make although a waiter has returned, and may have
      destroyed the coroutine. */
  ghost predicate Late(s: State) {
    (s.setter.AtNotify? || s.setter.AtCaller?) && exists w :: 0 <= w < |s.waiters| && s.waiters[w].Returned?
  }

  /** From its store of the word on, that can happen exactly if anybody waits at all. */
  lemma CanBeLateIff(s: State)
    requires Reachable(s) && s.setter.AtStore?
    ensures (exists s' :: Runs.Follows(Apply(s, StoreWord), s', Next) && Late(s')) <==> s.waiters != []
  {
    var from := Apply(s, StoreWord);
    if s.waiters != [] {
      var s' := ReturnsEarly(from);
      assert s'.waiters[0].Returned?;
    } else if s' :| Runs.Follows(from, s', Next) && Late(s') {
      var inv := (x: State) => x.waiters == [];
      forall x, x' | inv(x) && Next(x, x') ensures inv(x') {
        var e :| Enabled(x, e) && x' == Apply(x, e);
      }
      Runs.FollowsInvariant(from, s', Next, inv);
    }
  }

  /** A waiter needs no notification to see the word: it may be on its way to its next load. */
  lemma ReturnsEarly(from: State) returns (s': State)
    requires from.setter.AtNotify? && from.word && from.waiters != []
    ensures Runs.Follows(from, s', Next) && s'.setter.AtNotify? && s'.waiters != [] && s'.waiters[0].Returned?
  {
    Runs.FollowsItself(from, Next);
    s' := from;
    if s'.waiters[0].Asleep? { s' := Go(from, s', WakeSpuriously(0)); }
    if s'.waiters[0].AtSleep? { s' := Go(from, s', CompareSleep(0)); }
    if s'.waiters[0].AtLoad? { s' := Go(from, s', Load(0)); }
  }

  lemma Go(from: State, s: State, e: Event) returns (s': State)
    requires Runs.Follows(from, s, Next) && Enabled(s, e)
    ensures Runs.Follows(from, s', Next) && s' == Apply(s, e)
  {
    s' := Apply(s, e);
    assert Next(s, s');
    Runs.FollowsStep(from, s, s', Next);
  }

  // ---------- The promise as an object, one method per atomic access ----------

  class WaitablePromise {
    var m_state: bool
    var m_value: Option<Outcome>
    var setter: Setter
    var waiters: seq<Waiter>

    ghost function View(): State
      reads this
    {
      State(m_state, m_value, setter, waiters)
    }

    ghost predicate Valid()
      reads this
    {
      Reachable(View())
    }

    constructor (n: nat)
      ensures Valid() && View() == Start(n)
      ensures !m_state && m_value == None && |waiters| == n
    {
      m_state, m_value, setter, waiters := false, None, Computing, seq(n, i => AtLoad);
      new;
      assert View() == Start(n);
      Runs.InitialIsReachable(View(), Init, Next);
    }

    method ReturnOutcome(r: Outcome)
      requires Valid() && setter.Computing?
      modifies this
      ensures Valid() && View() == Apply(old(View()), Complete(r))
      ensures var s := old(View()); View() == s.(outcome := Some(r), setter := AtStore)
    {
      StepReachable(View(), Complete(r));
      m_value, setter := Some(r), AtStore;
    }

    method StoreState()
      requires Valid() && setter.AtStore?
      modifies this
      ensures Valid() && View() == Apply(old(View()), StoreWord)
      ensures var s := old(View()); View() == s.(word := true, setter := AtNotify)
    {
      StepReachable(View(), StoreWord);
      m_state, setter := true, AtNotify;
    }

    method Notify()
      requires Valid() && setter.AtNotify?
      modifies this
      ensures Valid() && View() == Apply(old(View()), NotifyAll)
      ensures setter == AtCaller && m_state == old(m_state) && m_value == old(m_value) && |waiters| == |old(waiters)|
      ensures forall w :: 0 <= w < |waiters| ==> waiters[w] == if old(waiters)[w].Asleep? then AtLoad else old(waiters)[w]
    {
      StepReachable(View(), NotifyAll);
      setter, waiters := AtCaller, WakeAll(waiters);
    }

    /** `get_caller`, read from the promise after everybody was notified. */
    method ReadCaller()
      requires Valid() && setter.AtCaller?
      modifies this
      ensures Valid() && View() == Apply(old(View()), LoadCaller)
      ensures var s := old(View()); View() == s.(setter := Through)
    {
      StepReachable(View(), LoadCaller);
      setter := Through;
    }

    /** The load of `wait`; when it returns true the outcome is there. */
    method LoadState(w: nat) returns (done: bool)
      requires Valid() && Enabled(View(), Load(w))
      modifies this
      ensures Valid() && View() == Apply(old(View()), Load(w))
      ensures done == m_state && (done ==> m_value.Some?)
      ensures var s := old(View()); View() == s.(waiters := s.waiters[w := if done then Returned else AtSleep])
    {
      StepReachable(View(), Load(w));
      ReachableInv(View());
      done := m_state;
      waiters := waiters[w := if m_state then Returned else AtSleep];
    }

    method CompareAndSleep(w: nat)
      requires Valid() && Enabled(View(), CompareSleep(w))
      modifies this
      ensures Valid() && View() == Apply(old(View()), CompareSleep(w))
      ensures var s := old(View()); View() == s.(waiters := s.waiters[w := if s.word then AtLoad else Asleep])
    {
      StepReachable(View(), CompareSleep(w));
      waiters := waiters[w := if m_state then AtLoad else Asleep];
    }

    method WakeUp(w: nat)
      requires Valid() && Enabled(View(), WakeSpuriously(w))
      modifies this
      ensures Valid() && View() == Apply(old(View()), WakeSpuriously(w))
      ensures var s := old(View()); View() == s.(waiters := s.waiters[w := AtLoad])
    {
      StepReachable(View(), WakeSpuriously(w));
      waiters := waiters[w := AtLoad];
    }
  }
}
