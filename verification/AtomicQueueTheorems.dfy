/** What every run of the queue guarantees to producers and consumers. */
module AtomicQueueTheorems {
  import opened Options
  import Runs
  import opened GapQueues
  import opened AtomicQueues

  // ---------- Order ----------

  function Values(pub: seq<Entry>): seq<Value> {
    seq(|pub|, i requires 0 <= i < |pub| => pub[i].value)
  }

  /** The values of one producer, in the order of its successful CASes. */
  function By(pub: seq<Entry>, t: Tid): (vs: seq<Value>) {
    if pub == [] then []
    else By(pub[..|pub| - 1], t) + (if pub[|pub| - 1].tid == t then [pub[|pub| - 1].value] else [])
  }

  ghost predicate Grown(s: State, s': State) {
    s.pub <= s'.pub && s.out <= s'.out && s.taken <= s'.taken
  }

  lemma HistoryGrows(b: seq<State>, i: nat, j: nat)
    requires IsRun(b) && i <= j < |b|
    ensures b[i].pub <= b[j].pub && b[i].out <= b[j].out && b[i].taken <= b[j].taken
  {
    InvIsInductive();
    forall s, s' | Inv(s) && Next(s, s') ensures Grown(s, s') {
      var e :| Enabled(s, e) && s' == Apply(s, e);
      StepGrows(s, e);
    }
    Runs.Monotone(b, Init, Next, Inv, Grown, i, j);
  }

  lemma StepGrows(s: State, e: Event)
    requires Enabled(s, e)
    ensures s.pub <= Apply(s, e).pub && s.out <= Apply(s, e).out && s.taken <= Apply(s, e).taken
    ensures s.tail.None? ==> Apply(s, e).tail.None?  // a stopped queue stays stopped
  {
    match e
    case Consume => ConsumeGrows(s);
    case CasOk(_) =>
    case _ => assert Apply(s, e).pub == s.pub && Apply(s, e).out == s.out;
  }

  lemma ConsumeGrows(s: State)
    requires !s.consumer.Free?
    ensures var s' := ApplyConsume(s); s'.pub == s.pub && s'.tail == s.tail && s.out <= s'.out && s.taken <= s'.taken
  {
    match s.consumer
    case Take(_, _) =>
    case Move(_) =>
    case Drop(_, _) =>
    case AtLoop(_, _, _) =>
    case _ =>
  }

  /** In every reachable state the values handed out are a prefix of the publication order,
      at most one value behind the head; what was handed out once is never revised. */
  lemma Fifo(b: seq<State>, i: nat, j: nat)
    requires IsRun(b) && i <= j < |b|
    ensures b[i].out <= b[j].out <= Values(b[j].pub)
    ensures b[j].taken - 1 <= |b[j].out| <= b[j].taken
  {
    RunInv(b, j);
    HistoryGrows(b, i, j);
  }

  lemma {:induction false} ByPrefix(pub: seq<Entry>, n: nat, t: Tid)
    requires n <= |pub|
    ensures By(pub[..n], t) <= By(pub, t)
  {
    if n == |pub| {
      assert pub[..n] == pub;
    } else {
      ByPrefix(pub[..|pub| - 1], n, t);
      assert pub[..|pub| - 1][..n] == pub[..n];
    }
  }

  /** The consumer sees the values of each producer in that producer's own order. */
  lemma ProducerOrder(b: seq<State>, k: nat, t: Tid)
    requires IsRun(b) && k < |b|
    ensures |b[k].out| <= |b[k].pub|
    ensures b[k].out == Values(b[k].pub[..|b[k].out|])
    ensures By(b[k].pub[..|b[k].out|], t) <= By(b[k].pub, t)
  {
    RunInv(b, k);
    ByPrefix(b[k].pub, |b[k].out|, t);
  }

  // ---------- What was called ----------

  ghost predicate Does(s: State, e: Event, s': State) {
    Enabled(s, e) && s' == Apply(s, e)
  }

  ghost predicate Traced(b: seq<State>, es: seq<Event>) {
    Runs.IsTrace(b, es, Init, Does)
  }

  lemma TracedIsRun(b: seq<State>, es: seq<Event>)
    requires Traced(b, es)
    ensures IsRun(b)
  {
    Runs.TraceIsRun(b, es, Init, Does, Next);
  }

  /** What the callers of `enqueue` have asked for: the values of the calls before their successful CAS,
      and those of the calls behind it, in the order of the CASes. No state enters into it. */
  datatype Calls = Calls(pending: map<Tid, Value>, published: seq<Entry>)

  ghost function Called(c: Calls, e: Event): Calls {
    match e
    case Allocate(t, _, v) => c.(pending := c.pending[t := v])
    case GiveUp(t) => c.(pending := c.pending - {t})
    case CasOk(t) =>
      if t in c.pending then Calls(c.pending - {t}, c.published + [Entry(t, c.pending[t])]) else c
    case _ => c
  }

  ghost function CallsOf(es: seq<Event>): Calls {
    if es == [] then Calls(map[], []) else Called(CallsOf(es[..|es| - 1]), es[|es| - 1])
  }

  /** The queue has what the callers asked for: every private node holds the value of its call. */
  ghost predicate Tracks(c: Calls, s: State) {
    && c.published == s.pub
    && (forall t :: t in c.pending <==> t in s.producers && !s.producers[t].Published?)
    && (forall t :: t in c.pending ==> Holds(s.heap, s.producers[t].node, c.pending[t]))
  }

  ghost predicate Holds(heap: Heap, a: Addr, v: Value) {
    a in heap && heap[a].slot == Live(v)
  }

  lemma TracksStep(c: Calls, s: State, e: Event)
    requires Inv(s) && Enabled(s, e) && Tracks(c, s)
    ensures Tracks(Called(c, e), Apply(s, e))
  {
    match e
    case Allocate(_, _, _) => TracksAllocate(c, s, e);
    case GiveUp(_) => TracksRest(c, s, e);
    case CasOk(_) => TracksCas(c, s, e);
    case Link(_) => TracksLink(c, s, e);
    case Consume => TracksConsume(c, s);
    case _ => TracksOther(c, s, e);
  }

  lemma TracksAllocate(c: Calls, s: State, e: Event)
    requires Enabled(s, e) && Tracks(c, s) && e.Allocate?
    ensures Tracks(Called(c, e), Apply(s, e))
  {
  }

  lemma TracksCas(c: Calls, s: State, e: Event)
    requires Inv(s) && Enabled(s, e) && Tracks(c, s) && e.CasOk?
    ensures Tracks(Called(c, e), Apply(s, e))
  {
    CasSeesLast(s, e.t);
  }

  /** The store of a link empties no slot. */
  lemma TracksLink(c: Calls, s: State, e: Event)
    requires Inv(s) && Enabled(s, e) && Tracks(c, s) && e.Link?
    ensures Tracks(Called(c, e), Apply(s, e))
  {
    var j := LinkPlace(s, e.t);
  }

  lemma TracksOther(c: Calls, s: State, e: Event)
    requires Enabled(s, e) && Tracks(c, s)
    requires e.LoadTail? || e.CasFail? || e.Lock? || e.Wake? || e.Relock? || e.Expire? || e.Stop?
    ensures Tracks(Called(c, e), Apply(s, e))
  {
  }

  /** The node a producer discards belongs to no other call. */
  lemma TracksRest(c: Calls, s: State, e: Event)
    requires Inv(s) && Enabled(s, e) && Tracks(c, s) && e.GiveUp?
    ensures Tracks(Called(c, e), Apply(s, e))
  {
    var n := s.producers[e.t].node;
    assert ProducerOk(s.heap, s.chain, s.pub, s.taken, e.t, s.producers[e.t]);
    assert Owns(s.chain, s.producers, s.consumer, n, Producing(e.t));
    forall u | u in c.pending && u != e.t ensures s.producers[u].node != n {
      assert Owns(s.chain, s.producers, s.consumer, s.producers[u].node, Producing(u));
    }
  }

  lemma TracksConsume(c: Calls, s: State)
    requires Inv(s) && !s.consumer.Free? && Tracks(c, s)
    ensures Tracks(c, ApplyConsume(s))
  {
    assert s.chain[0] in s.chain;
    forall u | u in c.pending
      ensures s.producers[u].node != s.head && (s.consumer.Drop? ==> s.producers[u].node != s.consumer.h)
    {
      assert ProducerOk(s.heap, s.chain, s.pub, s.taken, u, s.producers[u]);
      assert Owns(s.chain, s.producers, s.consumer, s.producers[u].node, Producing(u));
      if s.consumer.Drop? { assert Owns(s.chain, s.producers, s.consumer, s.consumer.h, Dropping); }
    }
    ConsumeTouches(s);
  }

  /** An access of the consumer changes the slot of the head and frees the old head, and no other node. */
  lemma ConsumeTouches(s: State)
    requires Inv(s) && !s.consumer.Free?
    ensures var s' := ApplyConsume(s);
      && s'.pub == s.pub && s'.producers == s.producers
      && forall a :: a in s.heap && a != s.head && !(s.consumer.Drop? && a == s.consumer.h) ==> a in s'.heap && s'.heap[a] == s.heap[a]
  {
    if !s.consumer.Take? && !Owes(s.consumer) { LoadIsLocal(s); }
  }

  lemma {:induction false} TracksAlways(b: seq<State>, es: seq<Event>, j: nat)
    requires Traced(b, es) && j <= |es|
    ensures Tracks(CallsOf(es[..j]), b[j])
  {
    if j > 0 {
      TracksAlways(b, es, j - 1);
      TracedIsRun(b, es);
      RunInv(b, j - 1);
      assert Runs.MovesAt(b, es, Does, j - 1);
      TracksStep(CallsOf(es[..j - 1]), b[j - 1], es[j - 1]);
      assert es[..j][..j - 1] == es[..j - 1];
    }
  }

  /** Nothing is lost, duplicated or invented: what was published is what the calls with a successful
      CAS were given, in the order of the CASes, and what was handed out is a prefix of it. */
  lemma DeliversWhatWasCalled(b: seq<State>, es: seq<Event>, j: nat)
    requires Traced(b, es) && j <= |es|
    ensures b[j].pub == CallsOf(es[..j]).published
    ensures b[j].out <= Values(CallsOf(es[..j]).published)
    ensures b[j].taken - 1 <= |b[j].out| <= b[j].taken
  {
    TracksAlways(b, es, j);
    TracedIsRun(b, es);
    Fifo(b, j, j);
  }

  /** The call of `enqueue` that began as event `i` publishes, by its CAS as event `j`, the value it was given. */
  lemma EnqueuePublishesItsArgument(b: seq<State>, es: seq<Event>, i: nat, j: nat, t: Tid, a: Addr, v: Value)
    requires Traced(b, es) && i < j < |es| && es[i] == Allocate(t, a, v) && es[j] == CasOk(t)
    requires forall k :: i < k < j ==> es[k] != CasOk(t) && es[k] != GiveUp(t)
    ensures b[j + 1].pub == b[j].pub + [Entry(t, v)]
  {
    StaysPending(b, es, i, j, t, a, v);
    TracksAlways(b, es, j);
    TracksAlways(b, es, j + 1);
    assert es[..j + 1][..j] == es[..j];
  }

  lemma {:induction false} StaysPending(b: seq<State>, es: seq<Event>, i: nat, j: nat, t: Tid, a: Addr, v: Value)
    requires Traced(b, es) && i < j <= |es| && es[i] == Allocate(t, a, v)
    requires forall k :: i < k < j ==> es[k] != CasOk(t) && es[k] != GiveUp(t)
    ensures t in CallsOf(es[..j]).pending && CallsOf(es[..j]).pending[t] == v
  {
    assert es[..j][..j - 1] == es[..j - 1];
    if i + 1 < j {
      StaysPending(b, es, i, j - 1, t, a, v);
      TracksAlways(b, es, j - 1);
      assert Runs.MovesAt(b, es, Does, j - 1);
    }
  }

  // ---------- Lifetime ----------

  /** The addresses the next access of a thread dereferences or frees. */
  ghost predicate Touches(s: State, a: Addr) {
    || (exists t :: t in s.producers && s.producers[t].Published? && s.producers[t].pred == a)
    || (exists t :: t in s.producers && !s.producers[t].Published? && s.producers[t].node == a)
    || (s.consumer.TryNext? && s.consumer.h == a)
    || (s.consumer.AtNext? && s.consumer.h == a)
    || (s.consumer.ReNext? && s.consumer.h == a)
    || (s.consumer.Drop? && s.consumer.h == a)
    || (s.consumer.Move? && s.consumer.n == a)
    || s.head == a
    || s.tail == Some(a)
  }

  /** No run frees a node twice, reads a freed node, moves a dead value or frees a live one;
      whatever a thread is about to touch is allocated, and every node has exactly one owner. */
  lemma NoUseAfterFree(b: seq<State>, k: nat, a: Addr)
    requires IsRun(b) && k < |b|
    ensures !b[k].fault
    ensures Touches(b[k], a) ==> a in b[k].heap
    ensures a in b[k].heap ==> exists o :: Owns(b[k].chain, b[k].producers, b[k].consumer, a, o)
  {
    RunInv(b, k);
    if t :| t in b[k].producers &&
            (b[k].producers[t].node == a || (b[k].producers[t].Published? && b[k].producers[t].pred == a)) {
      assert ProducerOk(b[k].heap, b[k].chain, b[k].pub, b[k].taken, t, b[k].producers[t]);
    }
  }

  /** An address freed and reallocated between a producer's load and its CAS does no harm:
      whatever the producer loaded long ago, a CAS that succeeds appends behind the last node. */
  lemma ReusedTailIsHarmless(b: seq<State>, k: nat, t: Tid)
    requires IsRun(b) && k < |b| && Enabled(b[k], CasOk(t))
    ensures b[k].chain != []
    ensures var s' := Apply(b[k], CasOk(t));
      && t in s'.producers && s'.producers[t] == Published(b[k].producers[t].node, b[k].chain[|b[k].chain| - 1], |b[k].pub|)
      && s'.chain == b[k].chain + [b[k].producers[t].node]
      && s'.producers[t].pred in s'.heap && s'.heap[s'.producers[t].pred].next == None
  {
    RunInv(b, k);
    CasSeesLast(b[k], t);
  }

  // ---------- Emptiness ----------

  predicate MaybeEmpty(s: State)
    requires s.head in s.heap
  {
    s.heap[s.head].next.None?
  }

  /** A report of "not empty" is always right; a report of "empty" is wrong only while
      the publisher of the oldest remaining value has not stored its link. */
  lemma EmptinessIsOneSided(b: seq<State>, k: nat)
    requires IsRun(b) && k < |b|
    ensures b[k].head in b[k].heap
    ensures !MaybeEmpty(b[k]) ==> b[k].taken < |b[k].pub|
    ensures MaybeEmpty(b[k]) && b[k].taken < |b[k].pub| ==>
      var t := b[k].pub[b[k].taken].tid;
      t in b[k].producers && b[k].producers[t].Published? && b[k].producers[t].pred == b[k].head
  {
    RunInv(b, k);
    if b[k].taken < |b[k].pub| {
      assert Joined(b[k].heap, b[k].chain, b[k].pub, b[k].taken, b[k].producers, 0);
    }
  }

  // ---------- Refinement of the gap queue ----------

  ghost predicate Unlinked(heap: Heap, chain: seq<Addr>, taken: nat, k: int) {
    taken <= k < taken + |chain| && chain[k - taken] in heap && heap[chain[k - taken]].next.None?
  }

  /** The places whose link is still to be stored. */
  ghost function Missing(heap: Heap, chain: seq<Addr>, taken: nat, published: nat): set<nat> {
    set k: nat | k < published && Unlinked(heap, chain, taken, k)
  }

  ghost function Abs(s: State): GapQueue<Entry> {
    GapQueue(s.pub, Missing(s.heap, s.chain, s.taken, |s.pub|), s.taken)
  }

  /** What an event does to the gap queue: the CAS publishes, the store of `next` links, the store of the head takes. */
  ghost function Effect(s: State, e: Event): GapQueue<Entry>
    requires Inv(s) && Enabled(s, e)
  {
    if e.CasOk? then Abs(s).Publish(Entry(e.t, CasValue(s, e.t)))
    else if e.Link? then Abs(s).Link(s.producers[e.t].index)
    else if e.Consume? && s.consumer.Take? then Abs(s).Take()
    else Abs(s)
  }

  ghost function CasValue(s: State, t: Tid): Value
    requires Inv(s) && Enabled(s, CasOk(t))
  {
    CasSeesLast(s, t);
    s.heap[s.producers[t].node].slot.value
  }

  /** Every step of the pointer structure is the gap queue's step `Effect` names, or none. */
  lemma StepRefines(s: State, e: Event)
    requires Inv(s) && Enabled(s, e)
    ensures Abs(Apply(s, e)) == Effect(s, e)
    ensures e.Link? ==> s.producers[e.t].index in Abs(s).missing
    ensures e.Consume? && s.consumer.Take? ==> Abs(s).CanTake()
  {
    match e
    case Allocate(_, _, _) => MissingFrame(s, Apply(s, e).heap);
    case GiveUp(t) =>
      assert ProducerOk(s.heap, s.chain, s.pub, s.taken, t, s.producers[t]);
      MissingFrame(s, Apply(s, e).heap);
    case CasOk(t) => CasOkRefines(s, t);
    case Link(t) => LinkRefines(s, t);
    case Consume => ConsumeRefines(s);
    case _ =>
  }

  lemma MissingFrame(s: State, heap': Heap)
    requires Agree(s.heap, heap', s.chain)
    ensures Missing(heap', s.chain, s.taken, |s.pub|) == Missing(s.heap, s.chain, s.taken, |s.pub|)
  {
  }

  lemma CasOkRefines(s: State, t: Tid)
    requires Inv(s) && Enabled(s, CasOk(t))
    ensures Abs(Apply(s, CasOk(t))) == Effect(s, CasOk(t))
  {
    CasSeesLast(s, t);
    var s' := Apply(s, CasOk(t));
    forall k: nat | k < |s'.pub|
      ensures Unlinked(s.heap, s'.chain, s.taken, k) <==> Unlinked(s.heap, s.chain, s.taken, k) || k == |s.pub|
    {
    }
  }

  lemma LinkRefines(s: State, t: Tid)
    requires Inv(s) && Enabled(s, Link(t))
    ensures s.producers[t].index in Abs(s).missing
    ensures Abs(Apply(s, Link(t))) == Abs(s).Link(s.producers[t].index)
  {
    var j := LinkPlace(s, t);
    LinkAbs(s, t, j);
  }

  lemma LinkAbs(s: State, t: Tid, j: nat)
    requires Enabled(s, Link(t)) && s.producers[t].index == s.taken + j < |s.pub| && j + 1 < |s.chain| && Distinct(s.chain)
    requires s.chain[j] in s.heap && s.heap[s.chain[j]].next.None?
    requires s.producers[t].pred == s.chain[j] && s.producers[t].node == s.chain[j + 1]
    ensures s.producers[t].index in Abs(s).missing
    ensures Abs(Apply(s, Link(t))) == Abs(s).Link(s.producers[t].index)
  {
    var heap' := s.heap[s.chain[j] := Node(Some(s.chain[j + 1]), s.heap[s.chain[j]].slot)];
    assert Apply(s, Link(t)).heap == heap';
    LinkMissing(s.heap, s.chain, s.taken, |s.pub|, j, heap');
  }

  lemma LinkPlace(s: State, t: Tid) returns (j: nat)
    requires Inv(s) && Enabled(s, Link(t))
    ensures s.producers[t].index == s.taken + j < |s.pub| && j + 1 < |s.chain| && Distinct(s.chain)
    ensures s.chain[j] in s.heap && s.heap[s.chain[j]].next.None?
    ensures s.producers[t].pred == s.chain[j] && s.producers[t].node == s.chain[j + 1]
  {
    assert ProducerOk(s.heap, s.chain, s.pub, s.taken, t, s.producers[t]);
    j := s.producers[t].index - s.taken;
  }

  lemma LinkMissing(heap: Heap, chain: seq<Addr>, taken: nat, published: nat, j: nat, heap': Heap)
    requires Distinct(chain) && j + 1 < |chain| && chain[j] in heap && taken + j < published
    requires heap' == heap[chain[j] := Node(Some(chain[j + 1]), heap[chain[j]].slot)]
    ensures Missing(heap', chain, taken, published) == Missing(heap, chain, taken, published) - {taken + j}
  {
    forall k: nat | k < published
      ensures Unlinked(heap', chain, taken, k) <==> Unlinked(heap, chain, taken, k) && k != taken + j
    {
      if taken <= k < taken + |chain| && k != taken + j {
        assert chain[k - taken] != chain[j];
      }
    }
  }

  lemma ConsumeRefines(s: State)
    requires Inv(s) && !s.consumer.Free?
    ensures Abs(ApplyConsume(s)) == if s.consumer.Take? then Abs(s).Take() else Abs(s)
    ensures s.consumer.Take? ==> Abs(s).CanTake()
  {
    if s.consumer.Take? {
      TakeRefines(s);
    } else if s.consumer.Drop? {
      DropRefines(s);
    } else if s.consumer.Move? {
      MoveRefines(s);
    } else {
      LoadIsLocal(s);
    }
  }

  lemma LoadIsLocal(s: State)
    requires !s.consumer.Free? && !s.consumer.Take? && !Owes(s.consumer)
    ensures var s' := ApplyConsume(s); s'.heap == s.heap && s'.chain == s.chain && s'.pub == s.pub && s'.taken == s.taken
  {
  }

  lemma TakeRefines(s: State)
    requires Inv(s) && s.consumer.Take?
    ensures Abs(s).CanTake() && Abs(ApplyConsume(s)) == Abs(s).Take()
  {
    TakeSeesSecond(s);
    TakeMissing(s.heap, s.chain, s.taken, |s.pub|);
  }

  lemma DropRefines(s: State)
    requires Inv(s) && s.consumer.Drop?
    ensures Abs(ApplyConsume(s)) == Abs(s)
  {
    DropChain(s, s.consumer.h);
    MissingFrame(s, s.heap - {s.consumer.h});
  }

  lemma TakeMissing(heap: Heap, chain: seq<Addr>, taken: nat, published: nat)
    requires |chain| > 1 && chain[0] in heap && heap[chain[0]].next.Some?
    ensures taken !in Missing(heap, chain, taken, published)
    ensures Missing(heap, chain[1..], taken + 1, published) == Missing(heap, chain, taken, published)
  {
    forall k: nat | k < published
      ensures Unlinked(heap, chain[1..], taken + 1, k) <==> Unlinked(heap, chain, taken, k)
    {
      if taken + 1 <= k < taken + |chain| { assert chain[1..][k - taken - 1] == chain[k - taken]; }
    }
  }

  lemma MoveRefines(s: State)
    requires Inv(s) && s.consumer.Move?
    ensures Abs(ApplyConsume(s)) == Abs(s)
  {
    var heap' := ApplyConsume(s).heap;
    assert heap'.Keys == s.heap.Keys && forall a :: a in s.heap ==> heap'[a].next == s.heap[a].next;
    SameLinks(s.heap, heap', s.chain, s.taken, |s.pub|);
  }

  lemma SameLinks(heap: Heap, heap': Heap, chain: seq<Addr>, taken: nat, published: nat)
    requires heap'.Keys == heap.Keys && forall a :: a in heap ==> heap'[a].next == heap[a].next
    ensures Missing(heap', chain, taken, published) == Missing(heap, chain, taken, published)
  {
    forall k: nat | k < published ensures Unlinked(heap', chain, taken, k) <==> Unlinked(heap, chain, taken, k) {
    }
  }

  /** Every run of the pointer structure is, step for step, a run of the gap queue, and the
      one-sided emptiness test of the one is that of the other. */
  lemma RunRefines(b: seq<State>, k: nat)
    requires IsRun(b) && k + 1 < |b|
    ensures Abs(b[k]).Valid() && StepsTo(Abs(b[k]), Abs(b[k + 1]))
    ensures b[k].head in b[k].heap && (MaybeEmpty(b[k]) <==> !Abs(b[k]).CanTake())
  {
    RunInv(b, k);
    assert Runs.StepAt(b, Next, k);
    var e :| Enabled(b[k], e) && b[k + 1] == Apply(b[k], e);
    StepIsQueueStep(b[k], e);
    EmptyAgrees(b[k]);
  }

  lemma StepIsQueueStep(s: State, e: Event)
    requires Inv(s) && Enabled(s, e)
    ensures Abs(s).Valid() && StepsTo(Abs(s), Abs(Apply(s, e)))
  {
    StepRefines(s, e);
    var q, q' := Abs(s), Abs(Apply(s, e));
    if e.CasOk? {
      assert q' == q.Publish(Entry(e.t, CasValue(s, e.t)));
    } else if e.Link? {
      assert q' == q.Link(s.producers[e.t].index);
    }
  }

  lemma EmptyAgrees(s: State)
    requires Inv(s)
    ensures MaybeEmpty(s) <==> !Abs(s).CanTake()
  {
    if |s.chain| > 1 {
      assert Joined(s.heap, s.chain, s.pub, s.taken, s.producers, 0);
    }
  }

  // ---------- The waiting consumer ----------

  /** The waiting consumer saw the tail ahead of the head but no link; it only reloads the tail. */
  predicate Spinning(s: State) {
    && s.tail.Some? && s.tail.value != s.head
    && (|| (s.consumer.AtLoop? && s.consumer.nx.None? && s.consumer.tl.Some? && s.consumer.tl.value != s.head)
        || (s.consumer.ReTail? && s.consumer.nx.None?))
  }

  /** The steps that catch a consumer: on its way into the loop it loads a missing link after a tail
      ahead of the head; woken, it reloads a missing link inside a gap; or, between its reload of the
      link and its reload of the tail, a producer publishes behind the head. */
  ghost predicate Catches(s: State, e: Event)
    requires Inv(s) && Enabled(s, e)
  {
    && s.tail.Some?
    && (|| (e.Consume? && s.consumer.AtNext? && s.consumer.tl != Some(s.head) && s.taken in Abs(s).missing)
        || (e.Consume? && s.consumer.ReNext? && s.taken in Abs(s).missing)
        || (e.CasOk? && s.consumer.ReTail? && s.consumer.nx.None? && s.tail == Some(s.head)))
  }

  /** A consumer is caught by these steps and by no other. */
  lemma CaughtIff(s: State, e: Event)
    requires Inv(s) && Enabled(s, e) && !Spinning(s)
    ensures Spinning(Apply(s, e)) <==> Catches(s, e)
  {
    if e.Consume? {
      GapIsMissing(s);
      CaughtByLoad(s, s.taken in Abs(s).missing);
    } else if e.CasOk? {
      CasSeesLast(s, e.t);
      assert s.chain[0] in s.chain;
    }
  }

  /** The gap as the consumer can see it: the tail is ahead of the head and the link is not stored. */
  lemma GapIsMissing(s: State)
    requires Inv(s)
    ensures s.head in s.heap && (s.taken in Abs(s).missing ==> s.heap[s.head].next.None?)
    ensures s.tail.Some? && s.heap[s.head].next.None? ==> (s.taken in Abs(s).missing <==> s.tail.value != s.head)
  {
    EmptyAgrees(s);
  }

  lemma CaughtByLoad(s: State, gap: bool)
    requires ConsumerOk(s.heap, s.head, s.tail, s.taken, s.consumer) && !s.consumer.Free? && !Spinning(s)
    requires s.head in s.heap && (gap ==> s.heap[s.head].next.None?)
    requires s.tail.Some? && s.heap[s.head].next.None? ==> (gap <==> s.tail.value != s.head)
    ensures Spinning(ApplyConsume(s)) <==>
      s.tail.Some? && gap && ((s.consumer.AtNext? && s.consumer.tl != Some(s.head)) || s.consumer.ReNext?)
  {
  }

  /** A woken consumer that saw no gap at all can be caught by a publication between its two loads,
      and stays caught when the value it waits for has become reachable. */
  lemma CaughtBetweenLoads(v: Value) returns (b: seq<State>, k: nat)
    ensures IsRun(b) && k + 2 < |b| && Inv(b[k])
    ensures b[k].consumer.ReTail? && Abs(b[k]).missing == {} && b[k].taken == |b[k].pub| && !Spinning(b[k])
    ensures var s := b[|b| - 1]; Spinning(s) && s.head in s.heap && !MaybeEmpty(s) && s.taken < |s.pub|
  {
    b := WokenBesideEmptyQueue(v);
    k := |b| - 1;
    RunInv(b, k);
    b := Then(b, Allocate(2, 2, v));
    b := Then(b, LoadTail(2));
    b := Then(b, CasOk(2));
    b := Then(b, Link(2));
  }

  /** Consumer 7 sleeps and is woken by a value that consumer 8 takes; then 7 reloads the link. */
  lemma WokenBesideEmptyQueue(v: Value) returns (b: seq<State>)
    ensures IsRun(b)
    ensures b[|b| - 1] == State(
      map[1 := Node(None, Raw)], 1, Some(1), map[], ReTail(1, None), 7, map[], {}, [1], [Entry(1, v)], 1, [v], false)
  {
    b := AsleepOnStub();
    b := PublishedAndWoken(b, v);
    b := TakenByAnother(b, v);
    b := Then(b, Relock(7));
    b := Then(b, Consume);
    b := Then(b, Consume);
  }

  lemma AsleepOnStub() returns (b: seq<State>)
    ensures IsRun(b)
    ensures b[|b| - 1] == State(
      map[0 := Node(None, Raw)], 0, Some(0), map[], Free, 7, map[7 := Some(0)], {}, [0], [], 0, [], false)
  {
    b := [Start(0)];
    b := Then(b, Lock(7, true));
    b := Then(b, Consume);
    b := Then(b, Consume);
    b := Then(b, Consume);
    b := Then(b, Consume);
  }

  lemma PublishedAndWoken(b: seq<State>, v: Value) returns (b': seq<State>)
    requires IsRun(b) && b[|b| - 1] == State(
      map[0 := Node(None, Raw)], 0, Some(0), map[], Free, 7, map[7 := Some(0)], {}, [0], [], 0, [], false)
    ensures IsRun(b') && b'[|b'| - 1] == State(
      map[0 := Node(Some(1), Raw), 1 := Node(None, Live(v))], 0, Some(1), map[], Free, 7, map[], {7},
      [0, 1], [Entry(1, v)], 0, [], false)
  {
    b' := Then(b, Allocate(1, 1, v));
    b' := Then(b', LoadTail(1));
    b' := Then(b', CasOk(1));
    b' := Then(b', Link(1));
    b' := Then(b', Wake(7));
  }

  lemma TakenByAnother(b: seq<State>, v: Value) returns (b': seq<State>)
    requires IsRun(b) && b[|b| - 1] == State(
      map[0 := Node(Some(1), Raw), 1 := Node(None, Live(v))], 0, Some(1), map[], Free, 7, map[], {7},
      [0, 1], [Entry(1, v)], 0, [], false)
    ensures IsRun(b') && b'[|b'| - 1] == State(
      map[1 := Node(None, Raw)], 1, Some(1), map[], Free, 8, map[], {7}, [1], [Entry(1, v)], 1, [v], false)
  {
    b' := Then(b, Lock(8, false));
    b' := Then(b', Consume);
    b' := Then(b', Consume);
    b' := Then(b', Consume);
    b' := Then(b', Consume);
    b' := Then(b', Consume);
  }

  /** No step but `stop` lets the caught consumer out, not even the store of the link it waits for. */
  lemma SpinIsClosed(s: State, e: Event)
    requires Inv(s) && Spinning(s) && Enabled(s, e) && !e.Stop?
    ensures Spinning(Apply(s, e)) && Apply(s, e).out == s.out
  {
    if e.CasOk? {
      CasSeesLast(s, e.t);
      assert s.chain[0] in s.chain;
    }
  }

  lemma {:induction false} SpinForever(b: seq<State>, k: nat, m: nat)
    requires IsRun(b) && k <= m < |b| && Spinning(b[k])
    requires b[m].tail.Some?  // stop has not been called
    ensures Spinning(b[m]) && b[m].out == b[k].out
  {
    if k < m {
      RunInv(b, m - 1);
      assert Runs.StepAt(b, Next, m - 1);
      var e := UnstoppedStep(b[m - 1], b[m]);
      SpinForever(b, k, m - 1);
      SpinIsClosed(b[m - 1], e);
    }
  }

  lemma UnstoppedStep(s: State, s': State) returns (e: Event)
    requires Next(s, s') && s'.tail.Some?
    ensures Enabled(s, e) && s' == Apply(s, e) && !e.Stop? && s.tail.Some?
  {
    e :| Enabled(s, e) && s' == Apply(s, e);
    StepGrows(s, e);
  }

  /** A consumer can be caught although the value it waits for has become reachable. */
  lemma SpinWithReachableValue(v: Value) returns (b: seq<State>)
    ensures IsRun(b)
    ensures var s := b[|b| - 1]; Spinning(s) && s.head in s.heap && !MaybeEmpty(s) && s.taken < |s.pub|
  {
    b := [Start(0)];
    b := Then(b, Lock(7, true));
    b := Then(b, Consume);
    b := Then(b, Allocate(1, 1, v));
    b := Then(b, LoadTail(1));
    b := Then(b, CasOk(1));
    b := Then(b, Consume);
    b := Then(b, Consume);
    b := Then(b, Link(1));
  }

  lemma Then(b: seq<State>, e: Event) returns (b': seq<State>)
    requires IsRun(b) && Enabled(b[|b| - 1], e)
    ensures IsRun(b') && b' == b + [Apply(b[|b| - 1], e)]
  {
    b' := b + [Apply(b[|b| - 1], e)];
    assert Next(b[|b| - 1], Apply(b[|b| - 1], e));
    Runs.Extend(b, Apply(b[|b| - 1], e), Init, Next);
  }

  /** A waiting consumer leaves empty-handed only from a stopped queue (or by its deadline). */
  lemma WaitReturnsNothingOnlyWhenStopped(b: seq<State>, k: nat)
    requires IsRun(b) && k < |b| && b[k].consumer.AtLoop? && ApplyConsume(b[k]).consumer.Free?
    ensures b[k].tail.None? || (b[k].consumer.tl == Some(b[k].head) && b[k].holder in ApplyConsume(b[k]).asleep)
  {
    RunInv(b, k);
    LoopExits(b[k]);
  }

  lemma LoopExits(s: State)
    requires s.consumer.AtLoop? && ConsumerOk(s.heap, s.head, s.tail, s.taken, s.consumer)
    requires ApplyConsume(s).consumer.Free?
    ensures s.tail.None? || (s.consumer.tl == Some(s.head) && s.holder in ApplyConsume(s).asleep)
  {
  }
}
