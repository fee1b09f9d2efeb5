/**
 `CountingSemaphore`: a word {count, waiters} changed by compare-and-swap, a queue of suspended
 handles filled after the swap, and wake tickets that a releaser works off after its swap.
 Every acquire gets a fresh number at its swap, which stands for its handle.
 */
module Semaphores {
  import opened Counting
  import opened GapQueues
  import opened Options
  import Runs

  datatype Counter = Counter(count: int, waiters: int)

  datatype Op = Acquire | TryAcquire | Release(n: int)

  datatype Thread =
    | Idle
    | Loaded(op: Op, seen: Counter)  // in the CAS loop
    | Enqueuing(id: nat)             // has to wait, about to publish its handle
    | Linking(place: nat)            // about to store the link to its handle
    | Waking(tickets: nat)           // still owes this many wake-ups

  /** Where an acquire is: running with a permit, suspended in the queue, or on its way there. */
  datatype Place = Granted(nth: nat) | Queued(place: nat) | Entering(t: nat)

  datatype State = State(
    counter: Counter, waiting: GapQueue<nat>, threads: seq<Thread>,
    // history: initial permits, permits released, acquires granted in order, place of every acquire
    init: int, released: int, grants: seq<nat>, places: seq<Place>)

  datatype Event =
    | Begin(t: nat, op: Op) | Cas(t: nat) | CasFail(t: nat)
    | Enqueue(t: nat) | Link(t: nat) | WakeOne(t: nat) | Leave(t: nat)

  function Start(init: int, n: nat): State {
    State(Counter(init, 0), Empty(), seq(n, i => Idle), init, 0, [], [])
  }

  ghost predicate Init(s: State) {
    exists init: int, n: nat :: s == Start(init, n)
  }

  function Max(a: int, b: int): int { if a < b then b else a }

  function Min(a: int, b: int): int { if a < b then a else b }

  /** The wake tickets a release draws. */
  function NeedWake(c: Counter, n: int): int {
    if n > 0 then Min(n, c.waiters) else 0
  }

  /** The word an operation tries to swap in. */
  function Update(c: Counter, op: Op): Counter {
    match op
    case Acquire => Counter(c.count - 1, if c.count - 1 < 0 then c.waiters + 1 else c.waiters)
    case TryAcquire => if c.count > 0 then Counter(c.count - 1, c.waiters) else c
    case Release(n) => Counter(c.count + n, c.waiters - NeedWake(c, n))
  }

  predicate Enabled(s: State, e: Event) {
    && e.t < |s.threads|
    && var p := s.threads[e.t];
    match e
    case Begin(_, _) => p.Idle?
    case Cas(_) => p.Loaded? && p.seen == s.counter
    case CasFail(_) => p.Loaded?
    case Enqueue(_) => p.Enqueuing?
    case Link(_) => p.Linking?
    case WakeOne(_) => p.Waking? && p.tickets > 0 && s.waiting.CanTake()
    case Leave(_) => p.Waking? && p.tickets == 0
  }

  function Apply(s: State, e: Event): State
    requires Enabled(s, e)
  {
    match e
    case Begin(t, op) => s.(threads := s.threads[t := Loaded(op, s.counter)])
    case CasFail(t) => s.(threads := s.threads[t := Loaded(s.threads[t].op, s.counter)])
    case Cas(t) => Swap(s, t, s.threads[t].op)
    case Enqueue(t) =>
      var id := s.threads[t].id;
      s.(waiting := s.waiting.Publish(id),
         threads := s.threads[t := Linking(|s.waiting.items|)],
         places := if id < |s.places| then s.places[id := Queued(|s.waiting.items|)] else s.places)
    case Link(t) =>
      s.(waiting := s.waiting.Link(s.threads[t].place), threads := s.threads[t := Idle])
    case WakeOne(t) =>
      var id := s.waiting.items[s.waiting.taken];
      s.(waiting := s.waiting.Take(),
         threads := s.threads[t := Waking(s.threads[t].tickets - 1)],
         places := if id < |s.places| then s.places[id := Granted(|s.grants|)] else s.places,
         grants := s.grants + [id])
    case Leave(t) => s.(threads := s.threads[t := Idle])
  }

  /** A successful compare-and-swap of thread `t`. */
  function Swap(s: State, t: nat, op: Op): State
    requires t < |s.threads|
  {
    var s' := s.(counter := Update(s.counter, op));
    match op
    case Acquire =>
      if s'.counter.count < 0
      then s'.(threads := s.threads[t := Enqueuing(|s.places|)], places := s.places + [Entering(t)])
      else s'.(threads := s.threads[t := Idle], places := s.places + [Granted(|s.grants|)], grants := s.grants + [|s.places|])
    case TryAcquire =>
      if s.counter.count > 0
      then s'.(threads := s.threads[t := Idle], places := s.places + [Granted(|s.grants|)], grants := s.grants + [|s.places|])
      else s'.(threads := s.threads[t := Idle])
    case Release(n) =>
      var need := NeedWake(s.counter, n);
      s'.(threads := s.threads[t := Waking(if need < 0 then 0 else need)], released := s.released + n)
  }

  ghost predicate Next(s: State, s': State) {
    exists e :: Enabled(s, e) && s' == Apply(s, e)
  }

  ghost predicate Reachable(s: State) {
    Runs.Reachable(s, Init, Next)
  }

  // ---------- The invariant ----------

  function Pending(p: Thread): int { if p.Enqueuing? then 1 else 0 }

  function Tickets(p: Thread): int { if p.Waking? then p.tickets else 0 }

  ghost function Pendings(s: State): int { Total(s.threads, Pending) }

  ghost function Outstanding(s: State): int { Total(s.threads, Tickets) }

  ghost predicate CounterOk(c: Counter) {
    0 <= c.waiters <= Max(0, -c.count)
  }

  ghost predicate CountsOk(s: State) {
    && |s.waiting.items| - s.waiting.taken + Pendings(s) == s.counter.waiters + Outstanding(s)
    && |s.grants| + Outstanding(s) + s.counter.count + s.counter.waiters == s.init + s.released
  }

  /** Each acquire is where its place says, and nowhere else. */
  ghost predicate PlaceOk(s: State, id: nat)
    requires id < |s.places|
  {
    match s.places[id]
    case Granted(j) => j < |s.grants| && s.grants[j] == id
    case Queued(k) => s.waiting.taken <= k < |s.waiting.items| && s.waiting.items[k] == id
    case Entering(t) => t < |s.threads| && s.threads[t] == Enqueuing(id)
  }

  ghost predicate PlacesOk(s: State) {
    && (forall id :: 0 <= id < |s.places| ==> PlaceOk(s, id))
    && (forall j :: 0 <= j < |s.grants| ==> s.grants[j] < |s.places| && s.places[s.grants[j]] == Granted(j))
    && (forall k :: s.waiting.taken <= k < |s.waiting.items| ==>
          s.waiting.items[k] < |s.places| && s.places[s.waiting.items[k]] == Queued(k))
    && (forall t :: 0 <= t < |s.threads| && s.threads[t].Enqueuing? ==>
          s.threads[t].id < |s.places| && s.places[s.threads[t].id] == Entering(t))
  }

  /** Every missing link has a thread about to store it. */
  ghost predicate LinksOk(waiting: GapQueue<nat>, threads: seq<Thread>) {
    && waiting.Valid()
    && (forall k <- waiting.missing :: exists t :: 0 <= t < |threads| && threads[t] == Linking(k))
    && (forall t, u :: 0 <= t < u < |threads| && threads[t].Linking? ==> threads[t] != threads[u])
    && (forall t :: 0 <= t < |threads| && threads[t].Linking? ==> threads[t].place in waiting.missing)
  }

  ghost predicate Inv(s: State) {
    CounterOk(s.counter) && CountsOk(s) && PlacesOk(s) && LinksOk(s.waiting, s.threads)
  }

  lemma {:induction false} StartTotals(n: nat)
    ensures Total(seq(n, i => Idle), Pending) == 0 && Total(seq(n, i => Idle), Tickets) == 0
  {
    if n > 0 {
      assert seq(n, i => Idle)[1..] == seq(n - 1, i => Idle);
      StartTotals(n - 1);
    }
  }

  lemma ThreadTotals(s: State, t: nat, p: Thread)
    requires t < |s.threads|
    ensures Total(s.threads[t := p], Pending) == Pendings(s) - Pending(s.threads[t]) + Pending(p)
    ensures Total(s.threads[t := p], Tickets) == Outstanding(s) - Tickets(s.threads[t]) + Tickets(p)
  {
    TotalUpdate(s.threads, t, p, Pending);
    TotalUpdate(s.threads, t, p, Tickets);
  }

  lemma StepCounts(s: State, e: Event)
    requires CounterOk(s.counter) && CountsOk(s) && Enabled(s, e)
    ensures CounterOk(Apply(s, e).counter) && CountsOk(Apply(s, e))
  {
    ThreadTotals(s, e.t, Apply(s, e).threads[e.t]);
    if e.Cas? { CasCounter(s.counter, s.threads[e.t].op); }
  }

  /** How a swap moves the counter, the waiters and the tickets. */
  lemma CasCounter(c: Counter, op: Op)
    requires CounterOk(c)
    ensures CounterOk(Update(c, op)) && (op.Release? ==> 0 <= NeedWake(c, op.n))
  {
  }

  lemma StepPlaces(s: State, e: Event)
    requires PlacesOk(s) && Enabled(s, e) && s.waiting.Valid()
    ensures PlacesOk(Apply(s, e))
  {
    match e
    case Cas(t) => CasPlaces(s, t);
    case Enqueue(t) => EnqueuePlaces(s, t);
    case WakeOne(t) => WakePlaces(s, t);
    case _ => MovePlaces(s, e);
  }

  /** Steps that publish, take and grant nothing. */
  lemma MovePlaces(s: State, e: Event)
    requires PlacesOk(s) && Enabled(s, e) && (e.Begin? || e.CasFail? || e.Link? || e.Leave?)
    ensures PlacesOk(Apply(s, e))
  {
    var s' := Apply(s, e);
    forall id | 0 <= id < |s'.places| ensures PlaceOk(s', id) { assert PlaceOk(s, id); }
  }

  lemma CasPlaces(s: State, t: nat)
    requires PlacesOk(s) && Enabled(s, Cas(t))
    ensures PlacesOk(Apply(s, Cas(t)))
  {
    var s' := Apply(s, Cas(t));
    forall id | 0 <= id < |s'.places| ensures PlaceOk(s', id) {
      if id < |s.places| { assert PlaceOk(s, id); }
    }
  }

  lemma EnqueuePlaces(s: State, t: nat)
    requires PlacesOk(s) && Enabled(s, Enqueue(t)) && s.waiting.Valid()
    ensures PlacesOk(Apply(s, Enqueue(t)))
  {
    var s' := Apply(s, Enqueue(t));
    forall id | 0 <= id < |s'.places| ensures PlaceOk(s', id) { assert PlaceOk(s, id); }
  }

  lemma WakePlaces(s: State, t: nat)
    requires PlacesOk(s) && Enabled(s, WakeOne(t))
    ensures PlacesOk(Apply(s, WakeOne(t)))
  {
    var s' := Apply(s, WakeOne(t));
    forall id | 0 <= id < |s'.places| ensures PlaceOk(s', id) { assert PlaceOk(s, id); }
  }

  lemma StepLinks(s: State, e: Event)
    requires LinksOk(s.waiting, s.threads) && Enabled(s, e)
    ensures LinksOk(Apply(s, e).waiting, Apply(s, e).threads)
  {
    var p := Apply(s, e).threads[e.t];
    match e
    case Enqueue(t) => PublishLinks(s.waiting, s.threads, t, s.threads[t].id);
    case Link(t) => StoreLinks(s.waiting, s.threads, t);
    case WakeOne(t) =>
      OtherLinks(s.waiting, s.threads, t, p);
    case _ => OtherLinks(s.waiting, s.threads, e.t, p);
  }

  lemma PublishLinks(waiting: GapQueue<nat>, threads: seq<Thread>, t: nat, id: nat)
    requires LinksOk(waiting, threads) && t < |threads| && !threads[t].Linking?
    ensures LinksOk(waiting.Publish(id), threads[t := Linking(|waiting.items|)])
  {
    var threads' := threads[t := Linking(|waiting.items|)];
    forall k | k in waiting.Publish(id).missing ensures exists u :: 0 <= u < |threads'| && threads'[u] == Linking(k) {
      if k == |waiting.items| {
        assert threads'[t] == Linking(k);
      } else {
        var u :| 0 <= u < |threads| && threads[u] == Linking(k);
        assert threads'[u] == Linking(k);
      }
    }
  }

  lemma StoreLinks(waiting: GapQueue<nat>, threads: seq<Thread>, t: nat)
    requires LinksOk(waiting, threads) && t < |threads| && threads[t].Linking?
    ensures LinksOk(waiting.Link(threads[t].place), threads[t := Idle])
  {
    var threads' := threads[t := Idle];
    forall k | k in waiting.missing && k != threads[t].place
      ensures exists u :: 0 <= u < |threads'| && threads'[u] == Linking(k)
    {
      var u :| 0 <= u < |threads| && threads[u] == Linking(k);
      assert threads'[u] == Linking(k);
    }
  }

  /** A thread that is not about to store a link moves to where it is not either. */
  lemma OtherLinks(waiting: GapQueue<nat>, threads: seq<Thread>, t: nat, p: Thread)
    requires LinksOk(waiting, threads) && t < |threads| && !threads[t].Linking? && !p.Linking?
    ensures LinksOk(waiting, threads[t := p])
    ensures waiting.CanTake() ==> LinksOk(waiting.Take(), threads[t := p])
  {
    var threads' := threads[t := p];
    forall k | k in waiting.missing ensures exists u :: 0 <= u < |threads'| && threads'[u] == Linking(k) {
      var u :| 0 <= u < |threads| && threads[u] == Linking(k);
      assert threads'[u] == Linking(k);
    }
  }

  lemma StepKeepsInv(s: State, e: Event)
    requires Inv(s) && Enabled(s, e)
    ensures Inv(Apply(s, e))
  {
    StepCounts(s, e);
    StepPlaces(s, e);
    StepLinks(s, e);
  }

  lemma InvIsInductive()
    ensures Runs.Inductive(Init, Next, Inv)
  {
    forall s | Init(s) ensures Inv(s) {
      var init: int, n: nat :| s == Start(init, n);
      StartTotals(n);
    }
    forall s, s' | Inv(s) && Next(s, s') ensures Inv(s') {
      var e :| Enabled(s, e) && s' == Apply(s, e);
      StepKeepsInv(s, e);
    }
  }

  lemma ReachableInv(s: State)
    requires Reachable(s)
    ensures Inv(s)
  {
    InvIsInductive();
    Runs.ReachableInvariant(s, Init, Next, Inv);
  }

  lemma StepReachable(s: State, e: Event)
    requires Reachable(s) && Enabled(s, e)
    ensures Reachable(Apply(s, e))
  {
    assert Next(s, Apply(s, e));
    Runs.StepIsReachable(s, Apply(s, e), Init, Next);
  }

  // ---------- What every run guarantees ----------

  /** Suspended handles in the queue and acquires on their way there are exactly the counted
      waiters plus the wake tickets still held by releasers. */
  lemma TicketsMatchHandles(s: State)
    requires Reachable(s)
    ensures |s.waiting.items| - s.waiting.taken + Pendings(s) == s.counter.waiters + Outstanding(s)
    ensures 0 <= Outstanding(s) && 0 <= Pendings(s)
  {
    ReachableInv(s);
    TotalBounds(s.threads, Pending);
    forall p | p in s.threads ensures 0 <= Tickets(p) {}
    TotalBounds(s.threads, Tickets);
  }

  /** An acquirer has swapped but not published its handle, or owes the link to place `k`. */
  ghost predicate SomebodyEntering(threads: seq<Thread>, k: nat) {
    exists u :: 0 <= u < |threads| && (threads[u].Enqueuing? || threads[u] == Linking(k))
  }

  /** A releaser that owes a wake-up finds a reachable handle, or some acquirer is between its swap
      and the link that makes the oldest handle reachable. */
  lemma WakerHasHandle(s: State, t: nat)
    requires Reachable(s) && t < |s.threads| && Tickets(s.threads[t]) > 0
    ensures s.waiting.CanTake() || SomebodyEntering(s.threads, s.waiting.taken)
  {
    ReachableInv(s);
    TicketsMatchHandles(s);
    TotalBounds(s.threads, Tickets);
    if s.waiting.taken == |s.waiting.items| {
      TotalWitness(s.threads, Pending);
    }
  }

  /** No acquire is granted twice, and a granted one is no longer queued: each parked handle is
      resumed at most once. */
  lemma GrantedOnce(s: State)
    requires Reachable(s)
    ensures forall i, j :: 0 <= i < j < |s.grants| ==> s.grants[i] != s.grants[j]
    ensures forall j, k :: 0 <= j < |s.grants| && s.waiting.taken <= k < |s.waiting.items| ==> s.grants[j] != s.waiting.items[k]
    ensures forall k, l :: s.waiting.taken <= k < l < |s.waiting.items| ==> s.waiting.items[k] != s.waiting.items[l]
  {
    ReachableInv(s);
  }

  /** Every acquire that was ever let through its swap is granted, queued or on its way. */
  lemma NoAcquireLost(s: State, id: nat)
    requires Reachable(s) && id < |s.places|
    ensures || id in s.grants
            || (exists k :: s.waiting.taken <= k < |s.waiting.items| && s.waiting.items[k] == id)
            || (exists t :: 0 <= t < |s.threads| && s.threads[t] == Enqueuing(id))
  {
    ReachableInv(s);
    assert PlaceOk(s, id);
  }

  /** For any initial value and any releases, negative ones included: waiters are counted only
      below zero, and permits granted, owed, left and anticipated add up to those put in. */
  lemma PermitsConserved(s: State)
    requires Reachable(s)
    ensures 0 <= s.counter.waiters <= Max(0, -s.counter.count)
    ensures |s.grants| + Outstanding(s) + s.counter.count + s.counter.waiters == s.init + s.released
  {
    ReachableInv(s);
  }

  /** The waiters are exactly the debt of the counter. */
  predicate Exact(c: Counter) {
    c.waiters == Max(0, -c.count)
  }

  /** A negative release leaves the counter at zero or above. */
  predicate Prudent(s: State, e: Event)
    requires Enabled(s, e)
  {
    e.Cas? && s.threads[e.t].op.Release? && s.threads[e.t].op.n < 0 ==> s.counter.count + s.threads[e.t].op.n >= 0
  }

  /** Exactness is lost by the negative releases that take the counter below zero, and by nothing else. */
  lemma ExactStepIff(s: State, e: Event)
    requires Inv(s) && Exact(s.counter) && Enabled(s, e)
    ensures Exact(Apply(s, e).counter) <==> Prudent(s, e)
  {
  }

  /** Any release that takes the count below zero does so, from any state, ... */
  lemma ImprudentRelease(s: State, t: nat, n: int) returns (s': State)
    requires Reachable(s) && t < |s.threads| && s.threads[t].Idle? && n < 0 && s.counter.count + n < 0
    requires Exact(s.counter)
    ensures Reachable(s') && !Exact(s'.counter) && s'.counter == Counter(s.counter.count + n, s.counter.waiters)
    ensures s'.init == s.init && |s'.threads| == |s.threads|
  {
    s' := Apply(s, Begin(t, Release(n)));
    StepReachable(s, Begin(t, Release(n)));
    StepReachable(s', Cas(t));
    s' := Apply(s', Cas(t));
  }

  ghost predicate Inexact(s: State, init: int, n: nat) {
    Reachable(s) && s.init == init && |s.threads| == n && !Exact(s.counter)
  }

  /** ... and a negative initial count has lost it from the start. With a count that is not negative
      and nobody to release, it holds in every run. */
  lemma InexactIff(init: int, n: nat)
    ensures (exists s :: Inexact(s, init, n)) <==> init < 0 || n > 0
  {
    var s0 := Start(init, n);
    Runs.InitialIsReachable(s0, Init, Next);
    if init < 0 {
      assert Inexact(s0, init, n);
    } else if n > 0 {
      var s := ImprudentRelease(s0, 0, -init - 1);
      assert Inexact(s, init, n);
    } else if s :| Inexact(s, init, n) {
      ThreadlessStays(s);
    }
  }

  ghost predicate Untouched(s: State) {
    s.threads == [] ==> s.counter == Counter(s.init, 0)
  }

  lemma ThreadlessStays(s: State)
    requires Reachable(s)
    ensures Untouched(s)
  {
    forall s, s' | Untouched(s) && Next(s, s') ensures Untouched(s') {
      var e :| Enabled(s, e) && s' == Apply(s, e);
    }
    Runs.ReachableInvariant(s, Init, Next, Untouched);
  }

  ghost predicate PrudentInit(s: State) {
    Init(s) && s.init >= 0
  }

  ghost predicate PrudentNext(s: State, s': State) {
    exists e :: Enabled(s, e) && Prudent(s, e) && s' == Apply(s, e)
  }

  ghost predicate PrudentReachable(s: State) {
    Runs.Reachable(s, PrudentInit, PrudentNext)
  }

  ghost predicate ExactInv(s: State) {
    Inv(s) && Exact(s.counter)
  }

  lemma PrudentInv(s: State)
    requires PrudentReachable(s)
    ensures ExactInv(s)
  {
    InvIsInductive();
    forall s, s' | ExactInv(s) && PrudentNext(s, s') ensures ExactInv(s') {
      var e :| Enabled(s, e) && Prudent(s, e) && s' == Apply(s, e);
      StepKeepsInv(s, e);
      ExactStepIff(s, e);
    }
    Runs.ReachableInvariant(s, PrudentInit, PrudentNext, ExactInv);
  }

  /** With prudent releases: granted, owed and free permits are those put in, at every moment. */
  lemma PermitLaw(s: State)
    requires PrudentReachable(s)
    ensures s.counter.waiters == Max(0, -s.counter.count)
    ensures |s.grants| + Outstanding(s) + Max(s.counter.count, 0) == s.init + s.released
  {
    PrudentInv(s);
  }

  // ---------- What was called ----------

  ghost predicate Does(s: State, e: Event, s': State) {
    Enabled(s, e) && s' == Apply(s, e)
  }

  ghost predicate Traced(b: seq<State>, es: seq<Event>) {
    Runs.IsTrace(b, es, Init, Does)
  }

  lemma TracedInv(b: seq<State>, es: seq<Event>, j: nat)
    requires Traced(b, es) && j <= |es|
    ensures Inv(b[j])
  {
    Runs.TraceIsRun(b, es, Init, Does, Next);
    InvIsInductive();
    Runs.InvariantAt(b, Init, Next, Inv, j);
  }

  /** The operation thread `t` called last, if any; no state enters into it. */
  ghost function CalledBy(es: seq<Event>, t: nat): Option<Op> {
    if es == [] then None
    else
      var e := es[|es| - 1];
      if e.Begin? && e.t == t then Some(e.op) else CalledBy(es[..|es| - 1], t)
  }

  /** A thread in its CAS loop executes the operation that it called. */
  lemma {:induction false} ExecutesItsCall(b: seq<State>, es: seq<Event>, j: nat, t: nat)
    requires Traced(b, es) && j <= |es| && t < |b[j].threads| && b[j].threads[t].Loaded?
    ensures CalledBy(es[..j], t) == Some(b[j].threads[t].op)
  {
    if j == 0 {
    } else {
      assert Runs.MovesAt(b, es, Does, j - 1);
      assert es[..j][..j - 1] == es[..j - 1];
      if !(es[j - 1].Begin? && es[j - 1].t == t) { ExecutesItsCall(b, es, j - 1, t); }
    }
  }

  /** What a swap does, by the operation that was called: an acquire takes a permit or becomes a counted
      waiter about to queue its handle; a try_acquire takes a permit exactly if there is one; a release
      adds its permits and owes the wake-ups it found waiters for. */
  ghost predicate Performs(s: State, s': State, t: nat, op: Op)
    requires t < |s.threads| == |s'.threads|
  {
    var c, id := s.counter, |s.places|;
    match op
    case Acquire =>
      if c.count > 0 then Grants(s, s', t)
      else
        && s'.counter == Counter(c.count - 1, c.waiters + 1) && s'.threads[t] == Enqueuing(id)
        && s'.places == s.places + [Entering(t)] && s'.grants == s.grants && s'.released == s.released
    case TryAcquire =>
      if c.count > 0 then Grants(s, s', t)
      else s'.counter == c && s'.threads[t] == Idle && s'.places == s.places && s'.grants == s.grants && s'.released == s.released
    case Release(n) =>
      && s'.released == s.released + n && s'.grants == s.grants && s'.places == s.places
      && s'.counter.count == c.count + n && s'.threads[t].Waking? && s'.threads[t].tickets == c.waiters - s'.counter.waiters
      && c.waiters - s'.counter.waiters == (if n <= 0 then 0 else if n < c.waiters then n else c.waiters)
  }

  ghost predicate Grants(s: State, s': State, t: nat)
    requires t < |s'.threads|
  {
    && s'.counter == Counter(s.counter.count - 1, s.counter.waiters) && s'.threads[t] == Idle
    && s'.places == s.places + [Granted(|s.grants|)] && s'.grants == s.grants + [|s.places|] && s'.released == s.released
  }

  /** Every swap performs the operation that its thread called. */
  lemma SwapPerformsItsCall(b: seq<State>, es: seq<Event>, j: nat, t: nat)
    requires Traced(b, es) && j < |es| && es[j] == Cas(t)
    ensures t < |b[j].threads| == |b[j + 1].threads| && CalledBy(es[..j], t).Some?
    ensures Performs(b[j], b[j + 1], t, CalledBy(es[..j], t).value)
  {
    assert Runs.MovesAt(b, es, Does, j);
    ExecutesItsCall(b, es, j, t);
    TracedInv(b, es, j);
  }

  /** The place of an acquire of thread `t`: on its way by that thread, queued, or granted. */
  predicate PlacedBy(s: State, id: nat, t: nat) {
    id < |s.places| && (s.places[id].Entering? ==> s.places[id] == Entering(t))
  }

  lemma PlacedByStep(s: State, e: Event, id: nat, t: nat)
    requires PlacedBy(s, id, t) && Enabled(s, e)
    ensures PlacedBy(Apply(s, e), id, t)
  {
  }

  /** An `acquire` is through, or its thread idle again, only with the acquire granted or its handle queued. */
  lemma AcquireIsServed(b: seq<State>, es: seq<Event>, j: nat, k: nat, t: nat)
    requires Traced(b, es) && j < k <= |es| && es[j] == Cas(t) && CalledBy(es[..j], t) == Some(Acquire)
    requires t < |b[k].threads| && b[k].threads[t].Idle?
    ensures var id := |b[j].places|; id < |b[k].places| && (id in b[k].grants || InQueue(b[k].waiting, id))
  {
    SwapPerformsItsCall(b, es, j, t);
    StaysPlaced(b, es, j, k, t);
    TracedInv(b, es, k);
    assert PlaceOk(b[k], |b[j].places|);
  }

  ghost predicate InQueue(waiting: GapQueue<nat>, id: nat) {
    exists k :: waiting.taken <= k < |waiting.items| && waiting.items[k] == id
  }

  lemma {:induction false} StaysPlaced(b: seq<State>, es: seq<Event>, j: nat, k: nat, t: nat)
    requires Traced(b, es) && j < k <= |es| && es[j] == Cas(t) && CalledBy(es[..j], t) == Some(Acquire)
    ensures PlacedBy(b[k], |b[j].places|, t)
  {
    SwapPerformsItsCall(b, es, j, t);
    if j + 1 < k {
      StaysPlaced(b, es, j, k - 1, t);
      assert Runs.MovesAt(b, es, Does, k - 1);
      PlacedByStep(b[k - 1], es[k - 1], |b[j].places|, t);
    }
  }

  /** The permits of the calls of `release` whose swap has succeeded. */
  ghost function ReleasedBy(es: seq<Event>): int {
    if es == [] then 0
    else
      var rest, e := es[..|es| - 1], es[|es| - 1];
      ReleasedBy(rest) +
      if e.Cas? && CalledBy(rest, e.t).Some? && CalledBy(rest, e.t).value.Release? then CalledBy(rest, e.t).value.n else 0
  }

  /** So the conservation laws speak of the permits that callers released. */
  lemma {:induction false} ReleasedIsWhatWasCalled(b: seq<State>, es: seq<Event>, j: nat)
    requires Traced(b, es) && j <= |es|
    ensures b[j].released == ReleasedBy(es[..j])
  {
    if j == 0 {
      var init: int, n: nat :| b[0] == Start(init, n);
    } else {
      ReleasedIsWhatWasCalled(b, es, j - 1);
      assert Runs.MovesAt(b, es, Does, j - 1);
      assert es[..j][..j - 1] == es[..j - 1];
      if es[j - 1].Cas? { SwapPerformsItsCall(b, es, j - 1, es[j - 1].t); }
    }
  }

  /** Waiters are never negative in number, and every handle on its way or queued is known. */
  lemma HandlesKnown(s: State, t: nat)
    requires Reachable(s) && t < |s.threads|
    ensures 0 <= s.counter.waiters && (s.threads[t].Enqueuing? ==> s.threads[t].id < |s.places|)
    ensures s.waiting.CanTake() ==> s.waiting.items[s.waiting.taken] < |s.places|
  {
    ReachableInv(s);
  }

  // ---------- The semaphore as an object, one method per atomic access ----------

  class CountingSemaphore {
    var m_count: Counter
    var m_waiters: GapQueue<nat>
    var threads: seq<Thread>
    ghost const init: int
    ghost var released: int
    var grants: seq<nat>
    var places: seq<Place>

    ghost function View(): State
      reads this
    {
      State(m_count, m_waiters, threads, init, released, grants, places)
    }

    ghost predicate Valid()
      reads this
    {
      Reachable(View())
    }

    constructor (init: int, n: nat)
      ensures Valid() && View() == Start(init, n)
      ensures m_count == Counter(init, 0) && m_waiters.items == [] && |threads| == n && grants == [] && released == 0
    {
      m_count, m_waiters, threads := Counter(init, 0), Empty(), seq(n, i => Idle);
      this.init, released, grants, places := init, 0, [], [];
      new;
      assert View() == Start(init, n);
      Runs.InitialIsReachable(View(), Init, Next);
    }

    /** The load before a CAS loop. */
    method LoadCount(t: nat, op: Op)
      requires Valid() && t < |threads| && threads[t].Idle?
      modifies this
      ensures Valid() && View() == Apply(old(View()), Begin(t, op))
      ensures var s := old(View()); View() == s.(threads := s.threads[t := Loaded(op, s.counter)])
    {
      StepReachable(View(), Begin(t, op));
      threads := threads[t := Loaded(op, m_count)];
    }

    /** `compare_exchange_weak` on the word: it may fail although the word is the expected one. */
    method CompareExchangeCount(t: nat, spurious: bool) returns (ok: bool)
      requires Valid() && t < |threads| && threads[t].Loaded?
      modifies this
      ensures Valid() && ok == (old(threads[t].seen == m_count) && !spurious)
      ensures View() == Apply(old(View()), if ok then Cas(t) else CasFail(t))
      ensures !ok ==> var s := old(View()); View() == s.(threads := s.threads[t := Loaded(s.threads[t].op, s.counter)])
      ensures ok && old(threads[t]).op.Acquire? ==> var s := old(View());
        View() == if s.counter.count > 0
          then s.(counter := s.counter.(count := s.counter.count - 1), threads := s.threads[t := Idle],
                  places := s.places + [Granted(|s.grants|)], grants := s.grants + [|s.places|])
          else s.(counter := Counter(s.counter.count - 1, s.counter.waiters + 1),
                  threads := s.threads[t := Enqueuing(|s.places|)], places := s.places + [Entering(t)])
      ensures ok && old(threads[t]).op.TryAcquire? ==> var s := old(View());
        View() == if s.counter.count > 0
          then s.(counter := s.counter.(count := s.counter.count - 1), threads := s.threads[t := Idle],
                  places := s.places + [Granted(|s.grants|)], grants := s.grants + [|s.places|])
          else s.(threads := s.threads[t := Idle])
      ensures ok && old(threads[t]).op.Release? ==> var s := old(View()); var n := s.threads[t].op.n;
        var need := if n <= 0 then 0 else if n < s.counter.waiters then n else s.counter.waiters;
        && 0 <= need
        && View() == s.(counter := Counter(s.counter.count + n, s.counter.waiters - need),
                        threads := s.threads[t := Waking(need)], released := s.released + n)
    {
      HandlesKnown(View(), t);
      ok := threads[t].seen == m_count && !spurious;
      StepReachable(View(), if ok then Cas(t) else CasFail(t));
      var op := threads[t].op;
      if !ok {
        threads := threads[t := Loaded(op, m_count)];
        return;
      }
      var was := m_count;
      m_count := Update(was, op);
      match op
      case Acquire =>
        if m_count.count < 0 {
          threads, places := threads[t := Enqueuing(|places|)], places + [Entering(t)];
        } else {
          GrantNow(t);
        }
      case TryAcquire =>
        if was.count > 0 {
          GrantNow(t);
        } else {
          threads := threads[t := Idle];
        }
      case Release(n) =>
        var need := NeedWake(was, n);
        threads := threads[t := Waking(if need < 0 then 0 else need)];
        released := released + n;
    }

    /** The acquire of thread `t` has its permit without waiting. */
    method GrantNow(t: nat)
      requires t < |threads|
      modifies this`threads, this`places, this`grants
      ensures threads == old(threads)[t := Idle] && places == old(places) + [Granted(|old(grants)|)]
      ensures grants == old(grants) + [|old(places)|]
    {
      threads, places, grants := threads[t := Idle], places + [Granted(|grants|)], grants + [|places|];
    }

    method EnqueueHandle(t: nat)
      requires Valid() && Enabled(View(), Enqueue(t))
      modifies this
      ensures Valid() && View() == Apply(old(View()), Enqueue(t))
      ensures var s := old(View()); var id, k := s.threads[t].id, |s.waiting.items|;
        && id < |s.places|
        && View() == s.(waiting := GapQueue(s.waiting.items + [id], s.waiting.missing + {k}, s.waiting.taken),
                        threads := s.threads[t := Linking(k)], places := s.places[id := Queued(k)])
    {
      HandlesKnown(View(), t);
      StepReachable(View(), Enqueue(t));
      var id, k := threads[t].id, |m_waiters.items|;
      m_waiters, threads := m_waiters.Publish(id), threads[t := Linking(k)];
      if id < |places| { places := places[id := Queued(k)]; }
    }

    method LinkHandle(t: nat)
      requires Valid() && Enabled(View(), Link(t))
      modifies this
      ensures Valid() && View() == Apply(old(View()), Link(t))
      ensures var s := old(View()); View() == s.(waiting := s.waiting.(missing := s.waiting.missing - {s.threads[t].place}), threads := s.threads[t := Idle])
    {
      StepReachable(View(), Link(t));
      m_waiters, threads := m_waiters.Link(threads[t].place), threads[t := Idle];
    }

    /** One turn of the wake loop: dequeue the oldest handle and resume it. */
    method WakeNext(t: nat) returns (id: nat)
      requires Valid() && Enabled(View(), WakeOne(t))
      modifies this
      ensures Valid() && View() == Apply(old(View()), WakeOne(t))
      ensures grants == old(grants) + [id] && id == old(m_waiters.items[m_waiters.taken])
      ensures m_waiters == old(m_waiters).Take() && m_count == old(m_count)
      ensures threads == old(threads)[t := Waking(old(threads[t].tickets) - 1)]
      ensures id < |old(places)| && places == old(places)[id := Granted(|old(grants)|)]
      ensures m_waiters.taken == old(m_waiters).taken + 1
    {
      HandlesKnown(View(), t);
      StepReachable(View(), WakeOne(t));
      id := m_waiters.items[m_waiters.taken];
      m_waiters, threads := m_waiters.Take(), threads[t := Waking(threads[t].tickets - 1)];
      if id < |places| { places := places[id := Granted(|grants|)]; }
      grants := grants + [id];
    }

    /** The wake loop of `release` while no other thread moves: the oldest handles are resumed, one
        per ticket, in the order they queued. It stops short only where it has to wait for an acquirer
        that is between its swap and the link to its handle. */
    method WakeLoop(t: nat) returns (done: bool)
      requires Valid() && t < |threads| && threads[t].Waking?
      modifies this
      ensures Valid() && m_count == old(m_count) && m_waiters.items == old(m_waiters.items)
      ensures old(m_waiters.taken) <= m_waiters.taken <= |m_waiters.items|
      ensures grants == old(grants) + m_waiters.items[old(m_waiters.taken)..m_waiters.taken]
      ensures m_waiters.taken - old(m_waiters.taken) <= old(threads[t].tickets)
      ensures threads == old(threads)[t :=
        if done then Idle else Waking(old(threads[t].tickets) - (m_waiters.taken - old(m_waiters.taken)))]
      ensures done <==> m_waiters.taken - old(m_waiters.taken) == old(threads[t].tickets)
      ensures !done ==> !m_waiters.CanTake() && SomebodyEntering(threads, m_waiters.taken)
    {
      assert m_waiters.taken <= |m_waiters.items| by { ReachableInv(View()); }
      while threads[t].tickets > 0 && m_waiters.CanTake()
        invariant Valid() && t < |threads| && threads[t].Waking? && threads == old(threads)[t := threads[t]]
        invariant m_count == old(m_count) && m_waiters.items == old(m_waiters.items)
        invariant threads[t].tickets + m_waiters.taken == old(m_waiters.taken + threads[t].tickets)
        invariant old(m_waiters.taken) <= m_waiters.taken <= |m_waiters.items|
        invariant grants == old(grants) + m_waiters.items[old(m_waiters.taken)..m_waiters.taken]
        decreases threads[t].tickets
      {
        var id := WakeNext(t);
      }
      done := threads[t].tickets == 0;
      if done {
        FinishRelease(t);
      } else {
        WakerHasHandle(View(), t);
      }
    }

    /** The last ticket is worked off: `release` returns. */
    method FinishRelease(t: nat)
      requires Valid() && t < |threads| && threads[t] == Waking(0)
      modifies this
      ensures Valid() && View() == Apply(old(View()), Leave(t))
      ensures var s := old(View()); View() == s.(threads := s.threads[t := Idle])
    {
      StepReachable(View(), Leave(t));
      threads := threads[t := Idle];
    }
  }
}
