/**
 `wait_each`: N runners hand their results to one parent through the queue and a handle cell.
 One event is one atomic access of one thread; any number of awaits may follow one another,
 and a thread still busy in `await_suspend` of an earlier await may act on a later one.
 */
module WaitEach {
  import opened Counting
  import opened GapQueues
  import opened Handshake
  import opened Outcomes
  import Runs

  datatype Item = Item(id: nat, result: Outcome)

  /** A runner before its enqueue, then at its place in the queue. */
  datatype Runner =
    | Working
    | Unlinked(place: nat)     // tail CAS done, link not stored
    | Linked(place: nat)       // about to decrement `remaining`
    | Decremented(place: nat)  // about to exchange the handle cell
    | Finished(place: nat)

  /** What is left of an `await_suspend` call after it stored the handle: the two loads of
      `maybe_empty`, the first of them when `at` results had been taken, and the exchange. */
  datatype Look = Checking | Looking(at: nat) | Exchanging | Done

  datatype Reason = SawZero | SawItem | Woken

  datatype Parent =
    | Running
    | Testing               // loaded a non-zero `remaining`, about to test the queue
    | Storing               // suspended, about to store its handle
    | Suspended
    | Taking(why: Reason)   // about to dequeue in await_resume

  datatype State = State(
    // the shared state
    queue: GapQueue<Item>, remaining: int, handle: bool,
    // where the threads are; claims are threads that took a handle out of the cell
    runners: seq<Runner>, checks: seq<Look>, parent: Parent, claims: set<Agent>,
    // history: results handed to the parent, how many there were when its last await began, and the
    // value of `remaining` it loaded then
    delivered: seq<Item>, begun: nat, left: int,
    // the parent was resumed while it was not suspended
    fault: bool)

  datatype Event =
    | Publish(i: nat, r: Outcome) | Link(i: nat) | Decrement(i: nat) | Exchange(i: nat)
    | LoadRemaining | TestEmpty | StoreHandle | Dequeue
    | RecheckHead(a: nat) | RecheckNext(a: nat, garbage: bool) | CheckExchange(a: nat)
    | Resume(g: Agent)

  function Start(n: nat): State {
    State(Empty(), n, false, seq(n, i => Working), [], Running, {}, [], 0, n, false)
  }

  ghost predicate Init(s: State) {
    exists n: nat :: s == Start(n)
  }

  predicate Enabled(s: State, e: Event) {
    match e
    case Publish(i, _) => i < |s.runners| && s.runners[i].Working?
    case Link(i) => i < |s.runners| && s.runners[i].Unlinked?
    case Decrement(i) => i < |s.runners| && s.runners[i].Linked?
    case Exchange(i) => i < |s.runners| && s.runners[i].Decremented?
    case LoadRemaining => s.parent.Running?
    case TestEmpty => s.parent.Testing?
    case StoreHandle => s.parent.Storing?
    case Dequeue => s.parent.Taking?
    case RecheckHead(a) => a < |s.checks| && s.checks[a].Checking?
    case RecheckNext(a, _) => a < |s.checks| && s.checks[a].Looking?
    case CheckExchange(a) => a < |s.checks| && s.checks[a].Exchanging?
    case Resume(g) => g in s.claims
  }

  /** Taking the handle out of the cell, by `exchange(nullptr)`. */
  function Claim(s: State, g: Agent): State {
    s.(claims := if s.handle then s.claims + {g} else s.claims, handle := false)
  }

  /** The second load of a re-check touches a head that a dequeue has removed since the first load. */
  predicate ReadsFreed(s: State, a: nat) {
    a < |s.checks| && s.checks[a].Looking? && s.checks[a].at < s.queue.taken
  }

  function Apply(s: State, e: Event): State
    requires Enabled(s, e)
  {
    match e
    case Publish(i, r) =>
      s.(queue := s.queue.Publish(Item(i, r)), runners := s.runners[i := Unlinked(|s.queue.items|)])
    case Link(i) =>
      s.(queue := s.queue.Link(s.runners[i].place), runners := s.runners[i := Linked(s.runners[i].place)])
    case Decrement(i) =>
      s.(remaining := s.remaining - 1, runners := s.runners[i := Decremented(s.runners[i].place)])
    case Exchange(i) =>
      Claim(s.(runners := s.runners[i := Finished(s.runners[i].place)]), RunnerOf(i))
    case LoadRemaining =>
      s.(parent := if s.remaining == 0 then Taking(SawZero) else Testing, begun := |s.delivered|, left := s.remaining)
    case TestEmpty => s.(parent := if s.queue.CanTake() then Taking(SawItem) else Storing)
    case StoreHandle => s.(handle := true, parent := Suspended, checks := s.checks + [Checking])
    case Dequeue =>
      if s.queue.CanTake()
      then s.(queue := s.queue.Take(), delivered := s.delivered + [s.queue.items[s.queue.taken]], parent := Running)
      else s.(parent := Running)
    case RecheckHead(a) => s.(checks := s.checks[a := Looking(s.queue.taken)])
    case RecheckNext(a, garbage) =>
      // a head that a dequeue has deleted since reads as anything
      var seen := if ReadsFreed(s, a) then garbage else s.queue.CanTake();
      s.(checks := s.checks[a := if seen then Exchanging else Done])
    case CheckExchange(a) => Claim(s.(checks := s.checks[a := Done]), CheckOf(a))
    case Resume(g) =>
      if s.parent.Suspended? then s.(claims := s.claims - {g}, parent := Taking(Woken))
      else s.(fault := true)
  }

  ghost predicate Next(s: State, s': State) {
    exists e :: Enabled(s, e) && s' == Apply(s, e)
  }

  ghost predicate Reachable(s: State) {
    Runs.Reachable(s, Init, Next)
  }

  // ---------- The invariant ----------

  /** Runner and queue agree on who published what: place k belongs to the runner it names. */
  ghost predicate PlacesOk(queue: GapQueue<Item>, runners: seq<Runner>) {
    && queue.Valid()
    && (forall k :: 0 <= k < |queue.items| ==> PlaceOk(queue, runners, k))
    && (forall i :: 0 <= i < |runners| ==> RunnerOk(queue, runners[i], i))
  }

  ghost predicate PlaceOk(queue: GapQueue<Item>, runners: seq<Runner>, k: nat)
    requires k < |queue.items|
  {
    var i := queue.items[k].id;
    && i < |runners| && !runners[i].Working? && runners[i].place == k
    && (k in queue.missing <==> runners[i].Unlinked?)
  }

  ghost predicate RunnerOk(queue: GapQueue<Item>, r: Runner, i: nat) {
    !r.Working? ==> r.place < |queue.items| && queue.items[r.place].id == i
  }

  function Placed(r: Runner): int { if r.Working? then 0 else 1 }

  function Outstanding(r: Runner): int { if r.Decremented? || r.Finished? then 0 else 1 }

  ghost predicate CountsOk(published: nat, remaining: int, runners: seq<Runner>) {
    published == Total(runners, Placed) && remaining == Total(runners, Outstanding)
  }

  ghost predicate ParentOk(s: State) {
    && s.queue.taken <= |s.queue.items| && s.delivered == s.queue.items[..s.queue.taken]
    && (!s.parent.Running? ==> s.begun == |s.delivered|)
    && (s.parent == Taking(SawZero) ==> s.remaining == 0)
    && (s.parent == Taking(SawItem) ==> s.queue.CanTake())
    && (s.parent.Testing? || s.parent.Storing? || s.parent.Suspended? ==> |s.runners| > 0 && s.left != 0)
    && (s.checks != [] ==> |s.runners| > 0)
  }

  /** A runner that has published and still has its exchange to do. */
  predicate InFlight(r: Runner) {
    r.Unlinked? || r.Linked? || r.Decremented?
  }

  /** A runner has its exchange to do, or the re-check of the latest `await_suspend` is not over. */
  ghost predicate SomePending(runners: seq<Runner>, checks: seq<Look>) {
    || (exists i :: 0 <= i < |runners| && InFlight(runners[i]))
    || (checks != [] && !checks[|checks| - 1].Done?)
  }

  /** While the handle is parked and a published result is undelivered, somebody has yet to look. */
  ghost predicate NothingStranded(queue: GapQueue<Item>, handle: bool, runners: seq<Runner>, checks: seq<Look>) {
    handle && queue.taken < |queue.items| ==> SomePending(runners, checks)
  }

  /** Nothing is dequeued while the parent is suspended, so the latest re-check looks at a live head. */
  ghost predicate LooksOk(taken: nat, checks: seq<Look>, suspended: bool) {
    && (forall a :: 0 <= a < |checks| && checks[a].Looking? ==> checks[a].at <= taken)
    && (suspended ==> checks != [] && (checks[|checks| - 1].Looking? ==> checks[|checks| - 1].at == taken))
  }

  ghost predicate Inv(s: State) {
    && PlacesOk(s.queue, s.runners)
    && CountsOk(|s.queue.items|, s.remaining, s.runners)
    && TokenOk(s.handle, s.claims, s.parent.Suspended?)
    && ParentOk(s)
    && NothingStranded(s.queue, s.handle, s.runners, s.checks)
    && LooksOk(s.queue.taken, s.checks, s.parent.Suspended?)
    && !s.fault
  }

  lemma {:induction false} StartTotals(n: nat)
    ensures Total(seq(n, i => Working), Placed) == 0 && Total(seq(n, i => Working), Outstanding) == n
  {
    if n > 0 {
      assert seq(n, i => Working)[1..] == seq(n - 1, i => Working);
      StartTotals(n - 1);
    }
  }

  lemma InitInv(s: State)
    requires Init(s)
    ensures Inv(s)
  {
    var n: nat :| s == Start(n);
    StartTotals(n);
  }

  lemma RunnerCounts(s: State, i: nat, r: Runner)
    requires i < |s.runners|
    ensures Total(s.runners[i := r], Placed) == Total(s.runners, Placed) - Placed(s.runners[i]) + Placed(r)
    ensures Total(s.runners[i := r], Outstanding) == Total(s.runners, Outstanding) - Outstanding(s.runners[i]) + Outstanding(r)
  {
    TotalUpdate(s.runners, i, r, Placed);
    TotalUpdate(s.runners, i, r, Outstanding);
  }

  lemma {:induction false} AllPlaced(runners: seq<Runner>)
    requires forall r <- runners :: !r.Working?
    ensures Total(runners, Placed) == |runners|
  {
    if runners == [] {
    } else {
      AllPlaced(runners[1..]);
    }
  }

  lemma RunnerKeeps(s: State, e: Event)
    requires Inv(s) && Enabled(s, e) && (e.Publish? || e.Link? || e.Decrement? || e.Exchange?)
    ensures Inv(Apply(s, e))
  {
    var s' := Apply(s, e);
    RunnerCounts(s, e.i, s'.runners[e.i]);
    RunnerPlaces(s, e);
    TotalBounds(s.runners, Outstanding);
    if !e.Exchange? {
      assert InFlight(s'.runners[e.i]);
    }
  }

  lemma RunnerPlaces(s: State, e: Event)
    requires Inv(s) && Enabled(s, e) && (e.Publish? || e.Link? || e.Decrement? || e.Exchange?)
    ensures PlacesOk(Apply(s, e).queue, Apply(s, e).runners)
  {
    var s' := Apply(s, e);
    assert RunnerOk(s.queue, s.runners[e.i], e.i);
    forall k | 0 <= k < |s'.queue.items| ensures PlaceOk(s'.queue, s'.runners, k) {
      if k < |s.queue.items| { assert PlaceOk(s.queue, s.runners, k); }
    }
    forall i | 0 <= i < |s'.runners| ensures RunnerOk(s'.queue, s'.runners[i], i) {
      assert RunnerOk(s.queue, s.runners[i], i);
    }
  }

  lemma ParentKeeps(s: State, e: Event)
    requires Inv(s) && Enabled(s, e)
    requires e.LoadRemaining? || e.TestEmpty? || e.StoreHandle? || e.Resume?
    ensures Inv(Apply(s, e))
  {
    if e.StoreHandle? {
      assert Apply(s, e).checks[|s.checks|].Checking?;
    }
    if e.LoadRemaining? && s.runners == [] {
      assert s.remaining == 0;
    }
  }

  lemma DequeueKeeps(s: State)
    requires Inv(s) && Enabled(s, Dequeue)
    ensures Inv(Apply(s, Dequeue))
  {
    var s' := Apply(s, Dequeue);
    forall k | 0 <= k < |s'.queue.items| ensures PlaceOk(s'.queue, s'.runners, k) {
      assert PlaceOk(s.queue, s.runners, k);
    }
    forall i | 0 <= i < |s'.runners| ensures RunnerOk(s'.queue, s'.runners[i], i) {
      assert RunnerOk(s.queue, s.runners[i], i);
    }
  }

  /** A re-check of the latest await that reports "empty" although a result is published saw an
      unstored link: the runner that owes the link owes its exchange as well. A stale re-check may
      report anything. */
  lemma RecheckKeeps(s: State, a: nat, garbage: bool)
    requires Inv(s) && Enabled(s, RecheckNext(a, garbage))
    ensures Inv(Apply(s, RecheckNext(a, garbage)))
  {
    if a == |s.checks| - 1 && s.handle && !s.queue.CanTake() && s.queue.taken < |s.queue.items| {
      assert PlaceOk(s.queue, s.runners, s.queue.taken);
      assert InFlight(s.runners[s.queue.items[s.queue.taken].id]);
    }
  }

  lemma StepKeepsInv(s: State, e: Event)
    requires Inv(s) && Enabled(s, e)
    ensures Inv(Apply(s, e))
  {
    match e
    case Publish(_, _) => RunnerKeeps(s, e);
    case Link(_) => RunnerKeeps(s, e);
    case Decrement(_) => RunnerKeeps(s, e);
    case Exchange(_) => RunnerKeeps(s, e);
    case Dequeue => DequeueKeeps(s);
    case RecheckNext(a, garbage) => RecheckKeeps(s, a, garbage);
    case RecheckHead(_) =>
    case CheckExchange(_) =>
    case _ => ParentKeeps(s, e);
  }

  lemma InvIsInductive()
    ensures Runs.Inductive(Init, Next, Inv)
  {
    forall s | Init(s) ensures Inv(s) { InitInv(s); }
    forall s, s' | Inv(s) && Next(s, s') ensures Inv(s') {
      var e :| Enabled(s, e) && s' == Apply(s, e);
      StepKeepsInv(s, e);
    }
  }

  lemma ReachableInv(s: State)
    requires Reachable(s)
    ensures Inv(s)
  {
    InvIsInductive();
    Runs.ReachableInvariant(s, Init, Next, Inv);
  }

  lemma StepReachable(s: State, e: Event)
    requires Reachable(s) && Enabled(s, e)
    ensures Reachable(Apply(s, e))
  {
    assert Next(s, Apply(s, e));
    Runs.StepIsReachable(s, Apply(s, e), Init, Next);
  }

  // ---------- The shared state as an object, one method per atomic access ----------

  class WaitEachAwaitable {
    var results: GapQueue<Item>
    var remaining: int
    var coroutineAddr: bool  // the cell holds the parent's handle
    var runners: seq<Runner>
    var checks: seq<Look>
    var parent: Parent
    var claims: set<Agent>
    ghost var delivered: seq<Item>
    ghost var begun: nat
    ghost var left: int

    ghost function View(): State
      reads this
    {
      State(results, remaining, coroutineAddr, runners, checks, parent, claims, delivered, begun, left, false)
    }

    ghost predicate Valid()
      reads this
    {
      Reachable(View())
    }

    constructor (n: nat)
      ensures Valid() && View() == Start(n)
      ensures results.items == [] && results.missing == {} && remaining == |runners| == n && !coroutineAddr
    {
      results, remaining, coroutineAddr := Empty(), n, false;
      runners, checks, parent, claims := seq(n, i => Working), [], Running, {};
      delivered, begun, left := [], 0, n;
      new;
      assert View() == Start(n);
      Runs.InitialIsReachable(View(), Init, Next);
    }

    method EnqueueResult(i: nat, r: Outcome)
      requires Valid() && Enabled(View(), Publish(i, r))
      modifies this
      ensures Valid() && View() == Apply(old(View()), Publish(i, r))
      ensures var s := old(View()); View() == s.(queue := GapQueue(s.queue.items + [Item(i, r)], s.queue.missing + {|s.queue.items|}, s.queue.taken),
        runners := s.runners[i := Unlinked(|s.queue.items|)])
    {
      StepReachable(View(), Publish(i, r));
      runners := runners[i := Unlinked(|results.items|)];
      results := results.Publish(Item(i, r));
    }

    method LinkResult(i: nat)
      requires Valid() && Enabled(View(), Link(i))
      modifies this
      ensures Valid() && View() == Apply(old(View()), Link(i))
      ensures var s := old(View()); View() == s.(queue := s.queue.(missing := s.queue.missing - {s.runners[i].place}),
        runners := s.runners[i := Linked(s.runners[i].place)])
    {
      StepReachable(View(), Link(i));
      results := results.Link(runners[i].place);
      runners := runners[i := Linked(runners[i].place)];
    }

    method FetchSubRemaining(i: nat)
      requires Valid() && Enabled(View(), Decrement(i))
      modifies this
      ensures Valid() && View() == Apply(old(View()), Decrement(i))
      ensures var s := old(View()); View() == s.(remaining := s.remaining - 1, runners := s.runners[i := Decremented(s.runners[i].place)])
    {
      StepReachable(View(), Decrement(i));
      remaining := remaining - 1;
      runners := runners[i := Decremented(runners[i].place)];
    }

    /** The runner's exchange; `claimed` tells whether it now has to resume the parent. */
    method RunnerExchange(i: nat) returns (claimed: bool)
      requires Valid() && Enabled(View(), Exchange(i))
      modifies this
      ensures Valid() && View() == Apply(old(View()), Exchange(i))
      ensures claimed == old(coroutineAddr) && (claimed ==> RunnerOf(i) in claims)
      ensures var s := old(View()); View() == s.(handle := false, runners := s.runners[i := Finished(s.runners[i].place)],
        claims := if claimed then s.claims + {RunnerOf(i)} else s.claims)
    {
      StepReachable(View(), Exchange(i));
      runners := runners[i := Finished(runners[i].place)];
      claimed, coroutineAddr := coroutineAddr, false;
      if claimed { claims := claims + {RunnerOf(i)}; }
    }

    method ReadyByRemaining() returns (ready: bool)
      requires Valid() && parent.Running?
      modifies this
      ensures Valid() && View() == Apply(old(View()), LoadRemaining)
      ensures ready == (parent == Taking(SawZero))
      ensures ready == (remaining == 0)
      ensures var s := old(View()); View() == s.(parent := if ready then Taking(SawZero) else Testing, begun := |s.delivered|, left := s.remaining)
    {
      StepReachable(View(), LoadRemaining);
      ready := remaining == 0;
      parent := if ready then Taking(SawZero) else Testing;
      begun, left := |delivered|, remaining;
    }

    method ReadyByQueue() returns (ready: bool)
      requires Valid() && parent.Testing?
      modifies this
      ensures Valid() && View() == Apply(old(View()), TestEmpty)
      ensures ready == (parent == Taking(SawItem))
      ensures ready == (results.taken < |results.items| && results.taken !in results.missing)
      ensures var s := old(View()); View() == s.(parent := if ready then Taking(SawItem) else Storing)
    {
      StepReachable(View(), TestEmpty);
      ready := results.CanTake();
      parent := if ready then Taking(SawItem) else Storing;
    }

    method StoreCoroutineAddr()
      requires Valid() && parent.Storing?
      modifies this
      ensures Valid() && View() == Apply(old(View()), StoreHandle)
      ensures var s := old(View()); View() == s.(handle := true, parent := Suspended, checks := s.checks + [Checking])
    {
      StepReachable(View(), StoreHandle);
      coroutineAddr, parent, checks := true, Suspended, checks + [Checking];
    }

    /** The first load of the re-check's `maybe_empty`. */
    method RecheckLoadHead(a: nat)
      requires Valid() && Enabled(View(), RecheckHead(a))
      modifies this
      ensures Valid() && View() == Apply(old(View()), RecheckHead(a))
      ensures var s := old(View()); View() == s.(checks := s.checks[a := Looking(s.queue.taken)])
    {
      StepReachable(View(), RecheckHead(a));
      checks := checks[a := Looking(results.taken)];
    }

    /** The second load; `garbage` is what it finds if the head it loaded first was deleted since. */
    method RecheckLoadNext(a: nat, garbage: bool)
      requires Valid() && Enabled(View(), RecheckNext(a, garbage))
      modifies this
      ensures Valid() && View() == Apply(old(View()), RecheckNext(a, garbage))
      ensures old(parent.Suspended?) && a == |checks| - 1 ==> !old(ReadsFreed(View(), a))
      ensures var s := old(View()); var stale := s.checks[a].at < s.queue.taken;
        var seen := if stale then garbage else s.queue.taken < |s.queue.items| && s.queue.taken !in s.queue.missing;
        View() == s.(checks := s.checks[a := if seen then Exchanging else Done])
    {
      ReachableInv(View());
      StepReachable(View(), RecheckNext(a, garbage));
      var seen := if checks[a].at < results.taken then garbage else results.CanTake();
      checks := checks[a := if seen then Exchanging else Done];
    }

    method SuspenderExchange(a: nat) returns (claimed: bool)
      requires Valid() && Enabled(View(), CheckExchange(a))
      modifies this
      ensures Valid() && View() == Apply(old(View()), CheckExchange(a))
      ensures claimed == old(coroutineAddr) && (claimed ==> CheckOf(a) in claims)
      ensures var s := old(View()); View() == s.(handle := false, checks := s.checks[a := Done],
        claims := if claimed then s.claims + {CheckOf(a)} else s.claims)
    {
      StepReachable(View(), CheckExchange(a));
      checks := checks[a := Done];
      claimed, coroutineAddr := coroutineAddr, false;
      if claimed { claims := claims + {CheckOf(a)}; }
    }

    /** The claimant calls `resume`; the parent is suspended whenever this happens. */
    method ResumeParent(g: Agent)
      requires Valid() && g in claims
      modifies this
      ensures Valid() && old(parent).Suspended? && View() == Apply(old(View()), Resume(g))
      ensures var s := old(View()); View() == s.(claims := s.claims - {g}, parent := Taking(Woken))
    {
      ReachableInv(View());
      StepReachable(View(), Resume(g));
      claims, parent := claims - {g}, Taking(Woken);
    }

    method TryDequeueResult() returns (r: seq<Item>)
      requires Valid() && parent.Taking?
      modifies this
      ensures Valid() && View() == Apply(old(View()), Dequeue)
      ensures delivered == old(delivered) + r && |r| <= 1
      ensures r != [] <==> old(results.taken < |results.items| && results.taken !in results.missing)
      ensures r != [] ==> r == [results.items[old(results.taken)]]
      ensures var s := old(View()); View() == s.(queue := s.queue.(taken := s.queue.taken + |r|), delivered := s.delivered + r, parent := Running)
    {
      StepReachable(View(), Dequeue);
      parent, r := Running, [];
      if results.CanTake() {
        r := [results.items[results.taken]];
        results := results.Take();
      }
      delivered := delivered + r;
    }
  }
}
