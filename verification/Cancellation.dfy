/**
 `CancelablePromiseBase`: a three-state word and a plain handle field, one registering thread and
 any number of threads that call `cancel`. Registrations are numbered; a number stands for the
 coroutine that awaits `wait_cancel`.
 */
module Cancellation {
  import opened Counting
  import opened Options
  import Runs

  datatype Phase = Pending | Canceled | Waiting

  /** Where the registering thread is inside `await_suspend`. */
  datatype Registrar =
    | Idle
    | AtReset(h: nat)                // about to CAS Waiting -> Pending
    | TakingOld(h: nat)              // replaced a waiter, about to exchange the field
    | ResumingOld(h: nat, former: Option<nat>)
    | AtStore(h: nat)                // about to write the field
    | AtSet(h: nat)                  // about to CAS Pending -> Waiting

  /** Where a call of `cancel` is; `Reading` follows an exchange that found `Waiting`. */
  datatype Canceller = Ready | Reading | Done(result: bool)

  datatype State = State(
    phase: Phase, waiter: Option<nat>,
    registrar: Registrar, cancellers: seq<Canceller>,
    // history: registrations so far, suspended coroutines, coroutines resumed through a handle
    registered: nat, suspended: set<nat>, resumed: seq<nat>,
    // a null handle, or a coroutine that was not suspended, was resumed
    fault: bool)

  datatype Event =
    | Register | ResetCas | TakeOld | ResumeOld | StoreWaiter | SetCas
    | Cancel(c: nat) | ResumeWaiter(c: nat)

  function Start(n: nat): State {
    State(Pending, None, Idle, seq(n, i => Ready), 0, {}, [], false)
  }

  ghost predicate Init(s: State) {
    exists n: nat :: s == Start(n)
  }

  predicate Enabled(s: State, e: Event) {
    match e
    case Register => s.registrar.Idle?
    case ResetCas => s.registrar.AtReset?
    case TakeOld => s.registrar.TakingOld?
    case ResumeOld => s.registrar.ResumingOld?
    case StoreWaiter => s.registrar.AtStore?
    case SetCas => s.registrar.AtSet?
    case Cancel(c) => c < |s.cancellers| && s.cancellers[c].Ready?
    case ResumeWaiter(c) => c < |s.cancellers| && s.cancellers[c].Reading?
  }

  function ResumeHandle(s: State, h: Option<nat>): State {
    if h.None? || h.value !in s.suspended then s.(fault := true)
    else s.(suspended := s.suspended - {h.value}, resumed := s.resumed + [h.value])
  }

  function Apply(s: State, e: Event): State
    requires Enabled(s, e)
  {
    match e
    case Register =>
      if s.phase == Canceled then s.(registered := s.registered + 1)  // await_ready: goes on at once
      else s.(registered := s.registered + 1, suspended := s.suspended + {s.registered}, registrar := AtReset(s.registered))
    case ResetCas =>
      if s.phase == Waiting then s.(phase := Pending, registrar := TakingOld(s.registrar.h))
      else s.(registrar := AtStore(s.registrar.h))
    case TakeOld => s.(registrar := ResumingOld(s.registrar.h, s.waiter), waiter := None)
    case ResumeOld =>
      var s' := s.(registrar := AtStore(s.registrar.h));
      if s.registrar.former.None? then s' else ResumeHandle(s', s.registrar.former)
    case StoreWaiter => s.(waiter := Some(s.registrar.h), registrar := AtSet(s.registrar.h))
    case SetCas =>
      if s.phase == Pending then s.(phase := Waiting, registrar := Idle)
      else
        // await_suspend returns false: the coroutine goes on by itself
        var h := s.registrar.h;
        s.(registrar := Idle, suspended := s.suspended - {h}, fault := s.fault || h !in s.suspended)
    case Cancel(c) =>
      var next := if s.phase == Waiting then Reading else Done(s.phase == Pending);
      s.(phase := Canceled, cancellers := s.cancellers[c := next])
    case ResumeWaiter(c) => ResumeHandle(s.(cancellers := s.cancellers[c := Done(true)]), s.waiter)
  }

  ghost predicate Next(s: State, s': State) {
    exists e :: Enabled(s, e) && s' == Apply(s, e)
  }

  ghost predicate Reachable(s: State) {
    Runs.Reachable(s, Init, Next)
  }

  // ---------- Cancelling, for any use ----------

  /** A call of `cancel` that returns, or is about to return, true. */
  function Winner(c: Canceller): int { if c.Reading? || c == Done(true) then 1 else 0 }

  ghost predicate CancelInv(s: State) {
    && Total(s.cancellers, Winner) == (if s.phase == Canceled then 1 else 0)
    && (s.phase == Canceled <==> exists c :: 0 <= c < |s.cancellers| && !s.cancellers[c].Ready?)
  }

  lemma {:induction false} StartTotal(n: nat)
    ensures Total(seq(n, i => Ready), Winner) == 0
  {
    if n > 0 {
      assert seq(n, i => Ready)[1..] == seq(n - 1, i => Ready);
      StartTotal(n - 1);
    }
  }

  lemma CancelStep(s: State, e: Event)
    requires CancelInv(s) && Enabled(s, e)
    ensures CancelInv(Apply(s, e)) && (s.phase == Canceled ==> Apply(s, e).phase == Canceled)
  {
    var s' := Apply(s, e);
    if e.Cancel? || e.ResumeWaiter? {
      TotalUpdate(s.cancellers, e.c, s'.cancellers[e.c], Winner);
      assert !s'.cancellers[e.c].Ready?;
    }
  }

  /** Once `cancel` has been called the state stays `Canceled`, and of all calls exactly one returns true. */
  lemma OneCancelWins(s: State)
    requires Reachable(s)
    ensures s.phase == Canceled <==> exists c :: 0 <= c < |s.cancellers| && !s.cancellers[c].Ready?
    ensures Total(s.cancellers, Winner) == (if s.phase == Canceled then 1 else 0)
  {
    forall s | Init(s) ensures CancelInv(s) {
      var n: nat :| s == Start(n);
      StartTotal(n);
    }
    forall s, s' | CancelInv(s) && Next(s, s') ensures CancelInv(s') {
      var e :| Enabled(s, e) && s' == Apply(s, e);
      CancelStep(s, e);
    }
    Runs.ReachableInvariant(s, Init, Next, CancelInv);
  }

  // ---------- Waiting ----------

  /** A second registration has seen the word uncancelled, but has not yet taken the parked handle out. */
  predicate Replacing(s: State) {
    s.registrar.AtReset? && s.phase == Waiting
  }

  /** No `cancel` falls between the two accesses of a replacement. */
  predicate Careful(s: State, e: Event) {
    e.Cancel? ==> !Replacing(s)
  }

  ghost predicate CarefulNext(s: State, s': State) {
    exists e :: Enabled(s, e) && Careful(s, e) && s' == Apply(s, e)
  }

  ghost predicate CarefulReachable(s: State) {
    Runs.Reachable(s, Init, CarefulNext)
  }

  /** Who is suspended: the one registering, and the one that is parked, being replaced, or in the
      field for the winning canceller to resume. */
  ghost predicate SuspendedOk(s: State) {
    match s.registrar
    case Idle =>
      || (s.suspended == {} && s.phase != Waiting && NoReader(s.cancellers))
      || (s.waiter.Some? && s.suspended == {s.waiter.value}
          && if s.phase == Waiting then NoReader(s.cancellers) else s.phase == Canceled && !NoReader(s.cancellers))
    case AtReset(h) =>
      && NoReader(s.cancellers)
      && if s.phase == Waiting then TwoSuspended(s.suspended, h, s.waiter) else s.suspended == {h}
    case TakingOld(h) => TwoSuspended(s.suspended, h, s.waiter) && s.phase != Waiting && NoReader(s.cancellers)
    case ResumingOld(h, former) => TwoSuspended(s.suspended, h, former) && s.phase != Waiting && NoReader(s.cancellers)
    case AtStore(h) => s.suspended == {h} && s.phase != Waiting && NoReader(s.cancellers)
    case AtSet(h) => s.suspended == {h} && s.phase != Waiting && NoReader(s.cancellers) && s.waiter == Some(h)
  }

  ghost predicate TwoSuspended(suspended: set<nat>, h: nat, earlier: Option<nat>) {
    earlier.Some? && earlier.value != h && suspended == {earlier.value, h}
  }

  ghost predicate NoReader(cancellers: seq<Canceller>) {
    forall c :: 0 <= c < |cancellers| ==> !cancellers[c].Reading?
  }

  ghost predicate OneReader(cancellers: seq<Canceller>) {
    forall c, d :: 0 <= c < d < |cancellers| ==> !(cancellers[c].Reading? && cancellers[d].Reading?)
  }

  /** A coroutine resumed through its handle is not suspended any more and was resumed once. */
  ghost predicate ResumedOk(s: State) {
    && (forall h <- s.suspended :: h < s.registered && h !in s.resumed)
    && (forall h <- s.resumed :: h < s.registered)
    && (forall i, j :: 0 <= i < j < |s.resumed| ==> s.resumed[i] != s.resumed[j])
  }

  ghost predicate CarefulInv(s: State) {
    CancelInv(s) && SuspendedOk(s) && OneReader(s.cancellers) && ResumedOk(s) && !s.fault
  }

  lemma CarefulStep(s: State, e: Event)
    requires CarefulInv(s) && Enabled(s, e) && Careful(s, e)
    ensures CarefulInv(Apply(s, e))
  {
    CancelStep(s, e);
    CarefulSuspended(s, e);
    CarefulResumed(s, e);
  }

  lemma CarefulSuspended(s: State, e: Event)
    requires SuspendedOk(s) && OneReader(s.cancellers) && ResumedOk(s) && Enabled(s, e) && Careful(s, e)
    ensures SuspendedOk(Apply(s, e)) && OneReader(Apply(s, e).cancellers)
  {
    var s' := Apply(s, e);
    if e.Cancel? {
      assert s.phase == Waiting ==> s'.cancellers[e.c].Reading?;
      if d :| 0 <= d < |s.cancellers| && s.cancellers[d].Reading? { assert s'.cancellers[d].Reading?; }
    } else if e.ResumeWaiter? {
      assert !NoReader(s.cancellers);
      assert s'.suspended == {};
    } else if e.SetCas? && s.phase != Pending {
      assert s'.suspended == {};
    }
  }

  lemma CarefulResumed(s: State, e: Event)
    requires SuspendedOk(s) && ResumedOk(s) && !s.fault && Enabled(s, e) && Careful(s, e)
    ensures ResumedOk(Apply(s, e)) && !Apply(s, e).fault
  {
    if e.ResumeWaiter? { assert !NoReader(s.cancellers); }
  }

  lemma CarefulReachableInv(s: State)
    requires CarefulReachable(s)
    ensures CarefulInv(s)
  {
    forall s | Init(s) ensures CarefulInv(s) {
      var n: nat :| s == Start(n);
      StartTotal(n);
    }
    forall s, s' | CarefulInv(s) && CarefulNext(s, s') ensures CarefulInv(s') {
      var e :| Enabled(s, e) && Careful(s, e) && s' == Apply(s, e);
      CarefulStep(s, e);
    }
    Runs.ReachableInvariant(s, Init, CarefulNext, CarefulInv);
  }

  /** With any number of registrations and replacements, no coroutine is resumed twice or while it
      runs; and once the registrar is idle and some call of `cancel` is over with none about to resume,
      nobody is left suspended. */
  lemma CarefulWaitersAreResumed(s: State)
    requires CarefulReachable(s)
    ensures !s.fault
    ensures forall i, j :: 0 <= i < j < |s.resumed| ==> s.resumed[i] != s.resumed[j]
    ensures Settled(s) ==> s.suspended == {}
  {
    CarefulReachableInv(s);
  }

  /** The registrar is idle, `cancel` has been called and no canceller is about to resume. */
  ghost predicate Settled(s: State) {
    s.registrar.Idle? && s.phase == Canceled && NoReader(s.cancellers)
  }

  /** From a settled state on nobody is ever resumed: who is suspended now stays suspended. */
  lemma SettledForever(s: State, e: Event)
    requires Settled(s) && Enabled(s, e)
    ensures Settled(Apply(s, e)) && Apply(s, e).suspended == s.suspended && Apply(s, e).resumed == s.resumed
  {
  }

  // ---------- What a cancel in the middle of a replacement does ----------

  /** A coroutine was resumed twice or while it ran, or is left behind for ever. */
  ghost predicate Harmed(s: State) {
    s.fault || (Settled(s) && s.suspended != {})
  }

  /** A `cancel` in that moment can lose the parked coroutine: it reads the field only after its
      exchange, and by then the field may hold the new handle. The parked coroutine is never resumed
      and the new one is resumed while it runs. */
  lemma CancelDuringReplacement(s: State, c: nat) returns (s': State)
    requires CarefulInv(s) && Replacing(s) && Enabled(s, Cancel(c))
    ensures Runs.Follows(Apply(s, Cancel(c)), s', NextButRegister) && s'.fault && Settled(s')
    ensures s.waiter.Some? && s'.suspended == {s.waiter.value}
    ensures c < |s'.cancellers| && s'.cancellers[c] == Done(true)
    ensures s'.resumed == s.resumed + [s.registrar.h]
  {
    var from := Apply(s, Cancel(c));
    Runs.FollowsItself(from, NextButRegister);
    s' := Go(from, from, ResetCas);
    s' := Go(from, s', StoreWaiter);
    s' := Go(from, s', ResumeWaiter(c));
    s' := Go(from, s', SetCas);
  }

  ghost predicate NextButRegister(s: State, s': State) {
    exists e :: Enabled(s, e) && !e.Register? && s' == Apply(s, e)
  }

  lemma Go(from: State, s: State, e: Event) returns (s': State)
    requires Runs.Follows(from, s, NextButRegister) && Enabled(s, e) && !e.Register?
    ensures Runs.Follows(from, s', NextButRegister) && s' == Apply(s, e)
  {
    s' := Apply(s, e);
    assert NextButRegister(s, s');
    Runs.FollowsStep(from, s, s', NextButRegister);
  }

  /** A call of `cancel` can do harm, under some schedule of everything that follows, exactly if it
      comes in that moment. */
  lemma CancelHarmsIff(s: State, c: nat)
    requires CarefulReachable(s) && Enabled(s, Cancel(c))
    ensures (exists s' :: Runs.Follows(Apply(s, Cancel(c)), s', Next) && Harmed(s')) <==> Replacing(s)
  {
    CarefulReachableInv(s);
    var from := Apply(s, Cancel(c));
    if Replacing(s) {
      var s' := CancelDuringReplacement(s, c);
      FollowsByAny(from, s');
    } else {
      CarefulStep(s, Cancel(c));
      forall s' | Runs.Follows(from, s', Next) ensures !Harmed(s') { CanceledStaysCareful(from, s'); }
    }
  }

  lemma FollowsByAny(from: State, s: State)
    requires Runs.Follows(from, s, NextButRegister)
    ensures Runs.Follows(from, s, Next)
  {
    Runs.FollowsItself(from, Next);
    var inv := (x: State) => Runs.Follows(from, x, Next);
    forall x, x' | inv(x) && NextButRegister(x, x') ensures inv(x') {
      assert Next(x, x');
      Runs.FollowsStep(from, x, x', Next);
    }
    Runs.FollowsInvariant(from, s, NextButRegister, inv);
  }

  ghost predicate CanceledCareful(s: State) {
    CarefulInv(s) && s.phase == Canceled
  }

  lemma CanceledStaysCareful(from: State, s: State)
    requires CanceledCareful(from) && Runs.Follows(from, s, Next)
    ensures !Harmed(s)
  {
    forall x, x' | CanceledCareful(x) && Next(x, x') ensures CanceledCareful(x') {
      var e :| Enabled(x, e) && x' == Apply(x, e);
      CarefulStep(x, e);
      CancelStep(x, e);
    }
    Runs.FollowsInvariant(from, s, Next, CanceledCareful);
  }

  /** As long as some thread may call `cancel`, a registration is safe until the next one exactly when
      the word does not say `Waiting`, the test that guards the replacement. */
  lemma RegisteringHarmsIff(s: State)
    requires CarefulReachable(s) && s.registrar.Idle? && s.cancellers != []
    ensures (exists s' :: Runs.Follows(Apply(s, Register), s', NextButRegister) && Harmed(s')) <==> s.phase == Waiting
  {
    CarefulReachableInv(s);
    if s.phase == Waiting {
      RegisteringHarms(s);
    } else {
      CarefulStep(s, Register);
      forall s' | Runs.Follows(Apply(s, Register), s', NextButRegister) ensures !Harmed(s') {
        NotReplacingForGood(Apply(s, Register), s');
      }
    }
  }

  lemma RegisteringHarms(s: State)
    requires CarefulInv(s) && s.registrar.Idle? && s.cancellers != [] && s.phase == Waiting
    ensures exists s' :: Runs.Follows(Apply(s, Register), s', NextButRegister) && Harmed(s')
  {
    var from := Apply(s, Register);
    CarefulStep(s, Register);
    var s' := CancelDuringReplacement(from, 0);
    var inv := (x: State) => Runs.Follows(from, x, NextButRegister);
    Runs.FollowsItself(from, NextButRegister);
    var s1 := Go(from, from, Cancel(0));
    forall x, x' | inv(x) && NextButRegister(x, x') ensures inv(x') {
      Runs.FollowsStep(from, x, x', NextButRegister);
    }
    Runs.FollowsInvariant(s1, s', NextButRegister, inv);
  }

  ghost predicate NotReplacing(s: State) {
    CarefulInv(s) && !Replacing(s)
  }

  lemma NotReplacingForGood(from: State, s: State)
    requires NotReplacing(from) && Runs.Follows(from, s, NextButRegister)
    ensures !Harmed(s)
  {
    forall x, x' | NotReplacing(x) && NextButRegister(x, x') ensures NotReplacing(x') {
      var e :| Enabled(x, e) && !e.Register? && x' == Apply(x, e);
      CarefulStep(x, e);
    }
    Runs.FollowsInvariant(from, s, NextButRegister, NotReplacing);
  }

  // ---------- A replacement nobody interferes with ----------

  ghost predicate RegistrarNext(s: State, s': State) {
    exists e :: Enabled(s, e) && (e.ResetCas? || e.TakeOld? || e.ResumeOld? || e.StoreWaiter? || e.SetCas?) && s' == Apply(s, e)
  }

  /** Without a concurrent `cancel` every replacement is clean: when it is over, the old coroutine has been
      resumed once and the new one is parked in its place. */
  lemma ReplacingAlone(s: State, s': State)
    requires CarefulReachable(s) && s.registrar.Idle? && s.phase == Waiting
    requires Runs.Follows(Apply(s, Register), s', RegistrarNext) && s'.registrar.Idle?
    ensures s.waiter.Some? && CarefulReachable(s') && s'.phase == Waiting
    ensures s'.waiter == Some(s.registered) && s'.suspended == {s.registered} && s'.resumed == s.resumed + [s.waiter.value]
  {
    CarefulReachableInv(s);
    CarefulReachableStep(s, Register);
    var from := Apply(s, Register);
    var inv := (x: State) => CarefulReachable(x) && Halfway(s, x);
    forall x, x' | inv(x) && RegistrarNext(x, x') ensures inv(x') {
      var e :| Enabled(x, e) && (e.ResetCas? || e.TakeOld? || e.ResumeOld? || e.StoreWaiter? || e.SetCas?) && x' == Apply(x, e);
      CarefulReachableStep(x, e);
      HalfwayStep(s, x, e);
    }
    Runs.FollowsInvariant(from, s', RegistrarNext, inv);
  }

  lemma CarefulReachableStep(s: State, e: Event)
    requires CarefulReachable(s) && Enabled(s, e) && Careful(s, e)
    ensures CarefulReachable(Apply(s, e))
  {
    assert CarefulNext(s, Apply(s, e));
    Runs.StepIsReachable(s, Apply(s, e), Init, CarefulNext);
  }

  /** How far the replacement of the waiter of `s` is in `x`. */
  ghost predicate Halfway(s: State, x: State) {
    && s.waiter.Some? && s.waiter.value < s.registered
    && var w, h := s.waiter.value, s.registered;
    match x.registrar
    case AtReset(g) => g == h && x.phase == Waiting && x.waiter == Some(w) && x.suspended == {w, h} && x.resumed == s.resumed
    case TakingOld(g) => g == h && x.phase == Pending && x.waiter == Some(w) && x.suspended == {w, h} && x.resumed == s.resumed
    case ResumingOld(g, former) => g == h && x.phase == Pending && former == Some(w) && x.suspended == {w, h} && x.resumed == s.resumed
    case AtStore(g) => g == h && x.phase == Pending && x.suspended == {h} && x.resumed == s.resumed + [w]
    case AtSet(g) => g == h && x.phase == Pending && x.waiter == Some(h) && x.suspended == {h} && x.resumed == s.resumed + [w]
    case Idle => x.phase == Waiting && x.waiter == Some(h) && x.suspended == {h} && x.resumed == s.resumed + [w]
  }

  lemma HalfwayStep(s: State, x: State, e: Event)
    requires Halfway(s, x) && Enabled(x, e) && (e.ResetCas? || e.TakeOld? || e.ResumeOld? || e.StoreWaiter? || e.SetCas?)
    ensures Halfway(s, Apply(x, e))
  {
  }

  /** A first registration, or one after all earlier coroutines were resumed, parks in the same way. */
  lemma RegisteringAlone(s: State, s': State)
    requires CarefulReachable(s) && s.registrar.Idle? && s.phase == Pending
    requires Runs.Follows(Apply(s, Register), s', RegistrarNext) && s'.registrar.Idle?
    ensures s.suspended == {} && CarefulReachable(s') && s'.phase == Waiting
    ensures s'.waiter == Some(s.registered) && s'.suspended == {s.registered} && s'.resumed == s.resumed
  {
    CarefulReachableInv(s);
    CarefulReachableStep(s, Register);
    var inv := (x: State) => CarefulReachable(x) && Parking(s, x);
    forall x, x' | inv(x) && RegistrarNext(x, x') ensures inv(x') {
      var e :| Enabled(x, e) && (e.ResetCas? || e.TakeOld? || e.ResumeOld? || e.StoreWaiter? || e.SetCas?) && x' == Apply(x, e);
      CarefulReachableStep(x, e);
    }
    Runs.FollowsInvariant(Apply(s, Register), s', RegistrarNext, inv);
  }

  /** How far the parking of the coroutine that registers in `s` is in `x`. */
  ghost predicate Parking(s: State, x: State) {
    var h := s.registered;
    && x.suspended == {h} && x.resumed == s.resumed
    && match x.registrar
       case AtReset(g) => g == h && x.phase == Pending
       case AtStore(g) => g == h && x.phase == Pending
       case AtSet(g) => g == h && x.phase == Pending && x.waiter == Some(h)
       case Idle => x.phase == Waiting && x.waiter == Some(h)
       case _ => false
  }

  /** A `cancel` that finds a coroutine parked resumes it, and returns true. */
  lemma CancelWakesParked(s: State, c: nat)
    requires CarefulReachable(s) && s.registrar.Idle? && s.phase == Waiting && Enabled(s, Cancel(c))
    ensures s.waiter.Some? && Enabled(Apply(s, Cancel(c)), ResumeWaiter(c))
    ensures var s' := Apply(Apply(s, Cancel(c)), ResumeWaiter(c));
      s'.cancellers[c] == Done(true) && s'.suspended == {} && s'.resumed == s.resumed + [s.waiter.value] && s'.phase == Canceled
  {
    CarefulReachableInv(s);
  }

  // ---------- The promise base as an object, one method per atomic access ----------

  class CancelablePromiseBase {
    var m_state: Phase
    var m_waiter: Option<nat>
    var registrar: Registrar
    var cancellers: seq<Canceller>
    var registered: nat
    ghost var suspended: set<nat>
    ghost var resumed: seq<nat>
    ghost var fault: bool

    ghost function View(): State
      reads this
    {
      State(m_state, m_waiter, registrar, cancellers, registered, suspended, resumed, fault)
    }

    ghost predicate Valid()
      reads this
    {
      Reachable(View())
    }

    constructor (n: nat)
      ensures Valid() && View() == Start(n)
      ensures m_state == Pending && m_waiter == None && registrar == Idle && |cancellers| == n
    {
      m_state, m_waiter, registrar, cancellers := Pending, None, Idle, seq(n, i => Ready);
      registered, suspended, resumed, fault := 0, {}, [], false;
      new;
      assert View() == Start(n);
      Runs.InitialIsReachable(View(), Init, Next);
    }

    /** `await_ready`, and the suspension that follows when it returns false. */
    method AwaitReady() returns (ready: bool)
      requires Valid() && registrar.Idle?
      modifies this
      ensures Valid() && View() == Apply(old(View()), Register)
      ensures ready == (m_state == Canceled)
      ensures var s := old(View()); View() == s.(registered := s.registered + 1, registrar := if ready then s.registrar else AtReset(s.registered),
        suspended := if ready then s.suspended else s.suspended + {s.registered})
    {
      StepReachable(View(), Register);
      ready := m_state == Canceled;
      if !ready {
        registrar, suspended := AtReset(registered), suspended + {registered};
      }
      registered := registered + 1;
    }

    method ResetWaiter() returns (replaced: bool)
      requires Valid() && registrar.AtReset?
      modifies this
      ensures Valid() && View() == Apply(old(View()), ResetCas)
      ensures replaced == (old(m_state) == Waiting)
      ensures var s := old(View()); var h := s.registrar.h;
        View() == if replaced then s.(phase := Pending, registrar := TakingOld(h)) else s.(registrar := AtStore(h))
    {
      StepReachable(View(), ResetCas);
      replaced := m_state == Waiting;
      if replaced {
        m_state, registrar := Pending, TakingOld(registrar.h);
      } else {
        registrar := AtStore(registrar.h);
      }
    }

    method ExchangeWaiter()
      requires Valid() && registrar.TakingOld?
      modifies this
      ensures Valid() && View() == Apply(old(View()), TakeOld)
      ensures var s := old(View()); View() == s.(registrar := ResumingOld(s.registrar.h, s.waiter), waiter := None)
    {
      StepReachable(View(), TakeOld);
      registrar, m_waiter := ResumingOld(registrar.h, m_waiter), None;
    }

    method ResumeFormer()
      requires Valid() && registrar.ResumingOld?
      modifies this
      ensures Valid() && View() == Apply(old(View()), ResumeOld)
      ensures var s := old(View()); var s' := s.(registrar := AtStore(s.registrar.h));
        View() == if s.registrar.former.None? then s' else ResumeHandle(s', s.registrar.former)
    {
      StepReachable(View(), ResumeOld);
      var former := registrar.former;
      registrar := AtStore(registrar.h);
      if former.Some? { NoteResumed(former); }
    }

    /** The history of a `resume` through a handle. */
    ghost method NoteResumed(h: Option<nat>)
      modifies this`suspended, this`resumed, this`fault
      ensures View() == ResumeHandle(old(View()), h)
      ensures h.Some? && h.value in old(suspended) ==>
        var s := old(View()); View() == s.(suspended := s.suspended - {h.value}, resumed := s.resumed + [h.value])
      ensures h.None? || h.value !in old(suspended) ==> var s := old(View()); View() == s.(fault := true)
    {
      if h.None? || h.value !in suspended {
        fault := true;
      } else {
        suspended, resumed := suspended - {h.value}, resumed + [h.value];
      }
    }

    method WriteWaiter()
      requires Valid() && registrar.AtStore?
      modifies this
      ensures Valid() && View() == Apply(old(View()), StoreWaiter)
      ensures var s := old(View()); View() == s.(waiter := Some(s.registrar.h), registrar := AtSet(s.registrar.h))
    {
      StepReachable(View(), StoreWaiter);
      m_waiter, registrar := Some(registrar.h), AtSet(registrar.h);
    }

    /** The CAS that ends `set_cancel_waiter`; its result is that of `await_suspend`. */
    method SetWaiting() returns (parked: bool)
      requires Valid() && registrar.AtSet?
      modifies this
      ensures Valid() && View() == Apply(old(View()), SetCas)
      ensures parked == (old(m_state) == Pending)
      ensures parked ==> var s := old(View()); View() == s.(phase := Waiting, registrar := Idle)
      ensures !parked ==> var s := old(View()); var h := s.registrar.h;
        View() == s.(registrar := Idle, suspended := s.suspended - {h}, fault := s.fault || h !in s.suspended)
    {
      StepReachable(View(), SetCas);
      parked := m_state == Pending;
      if parked {
        m_state, registrar := Waiting, Idle;
      } else {
        fault := fault || registrar.h !in suspended;
        suspended, registrar := suspended - {registrar.h}, Idle;
      }
    }

    method ExchangeState(c: nat)
      requires Valid() && Enabled(View(), Cancel(c))
      modifies this
      ensures Valid() && View() == Apply(old(View()), Cancel(c))
      ensures var s := old(View()); View() == s.(phase := Canceled,
        cancellers := s.cancellers[c := if s.phase == Waiting then Reading else Done(s.phase == Pending)])
    {
      StepReachable(View(), Cancel(c));
      cancellers := cancellers[c := if m_state == Waiting then Reading else Done(m_state == Pending)];
      m_state := Canceled;
    }

    method ResumeFromCancel(c: nat)
      requires Valid() && Enabled(View(), ResumeWaiter(c))
      modifies this
      ensures Valid() && View() == Apply(old(View()), ResumeWaiter(c))
      ensures View() == var s := old(View()); ResumeHandle(s.(cancellers := s.cancellers[c := Done(true)]), s.waiter)
    {
      StepReachable(View(), ResumeWaiter(c));
      cancellers := cancellers[c := Done(true)];
      NoteResumed(m_waiter);
    }
  }

  lemma StepReachable(s: State, e: Event)
    requires Reachable(s) && Enabled(s, e)
    ensures Reachable(Apply(s, e))
  {
    assert Next(s, Apply(s, e));
    Runs.StepIsReachable(s, Apply(s, e), Init, Next);
  }
}
