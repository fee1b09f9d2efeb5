/**
 The multi-producer queue as a transition system over a heap of nodes. Every event is one
 atomic access of one thread; a freed address may be handed out again by a later allocation.
 */
module AtomicQueues {
  import opened Options
  import Runs

  type Value(==, !new)
  type Addr = nat
  type Tid = nat

  /** The union member of a node: a value between its construction and its destruction. */
  datatype Slot = Raw | Live(value: Value)

  datatype Node = Node(next: Option<Addr>, slot: Slot)

  /** Where a thread is inside `enqueue`; a thread outside has no entry. */
  datatype Producer =
    | Allocated(node: Addr)
    | Loaded(node: Addr, seen: Option<Addr>)
    | Published(node: Addr, pred: Addr, index: nat)

  /** Where the thread that holds the consumer lock is. */
  datatype Consumer =
    | Free                                              // nobody holds the lock
    | AtHead(waits: bool)                               // about to load m_head
    | TryNext(h: Addr)                                  // try_dequeue: about to load head->next
    | AtTail(h: Addr)                                   // wait: about to load m_tail
    | AtNext(h: Addr, tl: Option<Addr>)                 // wait: about to load head->next
    | AtLoop(h: Addr, tl: Option<Addr>, nx: Option<Addr>) // wait: at the loop test
    | ReHead                                            // wait: woken, about to reload m_head
    | ReNext(h: Addr)                                   // wait: woken, about to reload head->next
    | ReTail(h: Addr, nx: Option<Addr>)                 // wait: about to reload m_tail
    | Take(h: Addr, n: Addr)                            // about to store m_head
    | Drop(h: Addr, n: Addr)                            // about to delete the old head
    | Move(n: Addr)                                     // about to move the value out

  /** One successful publication: who won the CAS on the tail, and with which value. */
  datatype Entry = Entry(tid: Tid, value: Value)

  datatype State = State(
    // what the class stores
    heap: map<Addr, Node>, head: Addr, tail: Option<Addr>,
    // where the threads are
    producers: map<Tid, Producer>,
    consumer: Consumer, holder: Tid, asleep: map<Tid, Option<Addr>>, woken: set<Tid>,
    // history: nodes from the head on, every publication, head moves, values handed out
    chain: seq<Addr>, pub: seq<Entry>, taken: nat, out: seq<Value>,
    // a dead node was touched, a dead value was moved, or a node was freed with a live value
    fault: bool)

  datatype Event =
    | Allocate(t: Tid, a: Addr, v: Value)
    | LoadTail(t: Tid)
    | GiveUp(t: Tid)
    | CasOk(t: Tid)
    | CasFail(t: Tid)
    | Link(t: Tid)
    | Lock(t: Tid, waits: bool)
    | Consume
    | Wake(t: Tid)
    | Relock(t: Tid)
    | Expire(t: Tid)
    | Stop

  ghost predicate Init(s: State) {
    exists stub: Addr :: s == Start(stub)
  }

  function Start(stub: Addr): State {
    State(map[stub := Node(None, Raw)], stub, Some(stub), map[], Free, 0, map[], {}, [stub], [], 0, [], false)
  }

  predicate Enabled(s: State, e: Event) {
    match e
    case Allocate(t, a, v) => t !in s.producers && a !in s.heap
    case LoadTail(t) => t in s.producers && s.producers[t].Allocated?
    case GiveUp(t) => t in s.producers && s.producers[t].Loaded? && s.producers[t].seen == None
    case CasOk(t) =>
      t in s.producers && s.producers[t].Loaded? && s.producers[t].seen.Some? && s.producers[t].seen == s.tail
    case CasFail(t) => t in s.producers && s.producers[t].Loaded? && s.producers[t].seen.Some?
    case Link(t) => t in s.producers && s.producers[t].Published?
    case Lock(t, waits) => s.consumer.Free? && t !in s.asleep && t !in s.woken
    case Consume => !s.consumer.Free?
    case Wake(t) => t in s.asleep && s.asleep[t] != s.tail
    case Relock(t) => s.consumer.Free? && t in s.woken
    case Expire(t) => t in s.asleep
    case Stop => true
  }

  function Fault(s: State): State {
    s.(fault := true)
  }

  function Apply(s: State, e: Event): State
    requires Enabled(s, e)
  {
    match e
    case Allocate(t, a, v) =>
      s.(heap := s.heap[a := Node(None, Live(v))], producers := s.producers[t := Allocated(a)])
    case LoadTail(t) =>
      s.(producers := s.producers[t := Loaded(s.producers[t].node, s.tail)])
    case GiveUp(t) =>
      var n := s.producers[t].node;
      if n !in s.heap || s.heap[n].slot.Raw? then Fault(s)
      else s.(heap := s.heap - {n}, producers := s.producers - {t})
    case CasOk(t) =>
      var n := s.producers[t].node;
      if n !in s.heap || s.heap[n].slot.Raw? then Fault(s)
      else s.(
        tail := Some(n),
        producers := s.producers[t := Published(n, s.tail.value, |s.pub|)],
        chain := s.chain + [n],
        pub := s.pub + [Entry(t, s.heap[n].slot.value)])
    case CasFail(t) =>
      s.(producers := s.producers[t := Loaded(s.producers[t].node, s.tail)])
    case Link(t) =>
      var p := s.producers[t];
      if p.pred !in s.heap then Fault(s)
      else s.(
        heap := s.heap[p.pred := s.heap[p.pred].(next := Some(p.node))],
        producers := s.producers - {t})
    case Lock(t, waits) => s.(consumer := AtHead(waits), holder := t)
    case Consume => ApplyConsume(s)
    case Wake(t) => s.(asleep := s.asleep - {t}, woken := s.woken + {t})
    case Relock(t) => s.(consumer := ReHead, holder := t, woken := s.woken - {t})
    case Expire(t) => s.(asleep := s.asleep - {t})
    case Stop => s.(tail := None)
  }

  /** The next access of the thread that holds the consumer lock. */
  function ApplyConsume(s: State): State
    requires !s.consumer.Free?
  {
    match s.consumer
    case AtHead(waits) => s.(consumer := if waits then AtTail(s.head) else TryNext(s.head))
    case TryNext(h) =>
      if h !in s.heap then Fault(s)
      else s.(consumer := if s.heap[h].next.None? then Free else Take(h, s.heap[h].next.value))
    case AtTail(h) => s.(consumer := AtNext(h, s.tail))
    case AtNext(h, tl) =>
      if h !in s.heap then Fault(s) else s.(consumer := AtLoop(h, tl, s.heap[h].next))
    case AtLoop(h, tl, nx) =>
      if nx.Some? then s.(consumer := Take(h, nx.value))
      else if tl.None? then s.(consumer := Free)
      else if tl.value == h then s.(consumer := Free, asleep := s.asleep[s.holder := tl])
      else s.(consumer := ReTail(h, nx))
    case ReHead => s.(consumer := ReNext(s.head))
    case ReNext(h) =>
      if h !in s.heap then Fault(s) else s.(consumer := ReTail(h, s.heap[h].next))
    case ReTail(h, nx) => s.(consumer := AtLoop(h, s.tail, nx))
    case Take(h, n) =>
      s.(head := n, consumer := Drop(h, n), chain := if s.chain == [] then [] else s.chain[1..], taken := s.taken + 1)
    case Drop(h, n) =>
      if h !in s.heap || s.heap[h].slot.Live? then Fault(s)
      else s.(heap := s.heap - {h}, consumer := Move(n))
    case Move(n) =>
      if n !in s.heap || s.heap[n].slot.Raw? then Fault(s)
      else s.(
        heap := s.heap[n := s.heap[n].(slot := Raw)],
        out := s.out + [s.heap[n].slot.value],
        consumer := Free)
  }

  ghost predicate Next(s: State, s': State) {
    exists e :: Enabled(s, e) && s' == Apply(s, e)
  }

  ghost predicate IsRun(b: seq<State>) {
    Runs.IsRun(b, Init, Next)
  }

  ghost predicate Reachable(s: State) {
    Runs.Reachable(s, Init, Next)
  }

  // ---------- The invariant ----------

  type Heap = map<Addr, Node>

  /** The nodes from the head on are distinct and live; a tail that is not null is the last of them. */
  ghost predicate ChainOk(heap: Heap, head: Addr, tail: Option<Addr>, chain: seq<Addr>, left: int) {
    && 0 <= left && |chain| == left + 1
    && chain[0] == head
    && Distinct(chain) && AllIn(heap, chain)
    && (tail.Some? ==> tail.value == chain[left])
  }

  ghost predicate Distinct(chain: seq<Addr>) {
    forall i, j :: 0 <= i < j < |chain| ==> chain[i] != chain[j]
  }

  ghost predicate AllIn(heap: Heap, chain: seq<Addr>) {
    forall i :: 0 <= i < |chain| ==> chain[i] in heap
  }

  /** Node `i` points to its successor, or the publisher of the successor still has to link it. */
  ghost predicate Joined(heap: Heap, chain: seq<Addr>, pub: seq<Entry>, taken: nat, producers: map<Tid, Producer>, i: nat) {
    && i + 1 < |chain| && taken + i < |pub| && chain[i] in heap
    && var t := pub[taken + i].tid;
    || heap[chain[i]].next == Some(chain[i + 1])
    || (heap[chain[i]].next == None
        && t in producers && producers[t] == Published(chain[i + 1], chain[i], taken + i))
  }

  ghost predicate LinksOk(heap: Heap, chain: seq<Addr>, pub: seq<Entry>, taken: nat, producers: map<Tid, Producer>) {
    && (forall i :: 0 <= i < |chain| - 1 ==> Joined(heap, chain, pub, taken, producers, i))
    && |chain| > 0 && chain[|chain| - 1] in heap && heap[chain[|chain| - 1]].next == None
  }

  /** Every node behind the head holds the value published for it. */
  ghost predicate SlotsOk(heap: Heap, chain: seq<Addr>, pub: seq<Entry>, taken: nat) {
    forall i :: 1 <= i < |chain| ==> SlotOk(heap, chain[i], pub, taken + i)
  }

  /** The node holds the value published as number `k`, counted from one. */
  ghost predicate SlotOk(heap: Heap, a: Addr, pub: seq<Entry>, k: int) {
    0 < k <= |pub| && a in heap && heap[a].slot == Live(pub[k - 1].value)
  }

  /** The head holds no value, except between the move of the head and the move of the value. */
  ghost predicate HeadOk(heap: Heap, head: Addr, pub: seq<Entry>, taken: nat, out: seq<Value>, owes: bool) {
    && head in heap && taken <= |pub|
    && |out| == taken - (if owes then 1 else 0)
    && heap[head].slot == (if owes then Live(pub[taken - 1].value) else Raw)
    && forall i :: 0 <= i < |out| ==> out[i] == pub[i].value
  }

  /** The head has moved but the value is not handed out yet. */
  predicate Owes(c: Consumer) {
    c.Drop? || c.Move?
  }

  /** A published node sits in the chain behind a predecessor with no link; any other node is private. */
  ghost predicate ProducerOk(heap: Heap, chain: seq<Addr>, pub: seq<Entry>, taken: nat, t: Tid, p: Producer) {
    if p.Published? then
      && taken <= p.index < |pub| && pub[p.index].tid == t
      && p.index - taken + 1 < |chain|
      && chain[p.index - taken] == p.pred && chain[p.index - taken + 1] == p.node
      && p.pred in heap && heap[p.pred].next == None
    else
      && p.node in heap && heap[p.node].slot.Live? && heap[p.node].next == None
      && p.node !in chain
  }

  ghost predicate ProducersOk(heap: Heap, chain: seq<Addr>, pub: seq<Entry>, taken: nat, producers: map<Tid, Producer>) {
    forall t :: t in producers ==> ProducerOk(heap, chain, pub, taken, t, producers[t])
  }

  /** Who answers for an allocated node: the chain, one producer, or the consumer about to free it. */
  datatype Owner = Chained | Producing(t: Tid) | Dropping

  ghost predicate Owns(chain: seq<Addr>, producers: map<Tid, Producer>, c: Consumer, a: Addr, o: Owner) {
    match o
    case Chained => a in chain
    case Producing(t) => t in producers && !producers[t].Published? && producers[t].node == a
    case Dropping => c.Drop? && c.h == a
  }

  /** Every allocated node has exactly one owner. */
  ghost predicate NoLeak(heap: Heap, chain: seq<Addr>, producers: map<Tid, Producer>, c: Consumer) {
    && (forall a :: a in heap ==> exists o :: Owns(chain, producers, c, a, o))
    && (forall a, o, o' :: Owns(chain, producers, c, a, o) && Owns(chain, producers, c, a, o') ==> o == o')
  }

  ghost predicate ConsumerOk(heap: Heap, head: Addr, tail: Option<Addr>, taken: nat, c: Consumer) {
    match c
    case Free => true
    case AtHead(_) => true
    case TryNext(h) => h == head
    case AtTail(h) => h == head
    case AtNext(h, tl) => h == head && TailOk(head, tail, tl)
    case AtLoop(h, tl, nx) => h == head && TailOk(head, tail, tl) && (nx.Some? ==> LinkedTo(heap, h, nx))
    case ReHead => true
    case ReNext(h) => h == head
    case ReTail(h, nx) => h == head && (nx.Some? ==> LinkedTo(heap, h, nx))
    case Take(h, n) => h == head && LinkedTo(heap, h, Some(n))
    case Drop(h, n) => n == head && h != head && 0 < taken && h in heap && heap[h] == Node(Some(n), Raw)
    case Move(n) => n == head && 0 < taken
  }

  /** A tail loaded as null stays null; one loaded ahead of the head never comes back to it. */
  predicate TailOk(head: Addr, tail: Option<Addr>, loaded: Option<Addr>) {
    if loaded.None? then tail.None? else loaded.value != head ==> tail != Some(head)
  }

  ghost predicate LinkedTo(heap: Heap, h: Addr, nx: Option<Addr>) {
    h in heap && heap[h].next == nx
  }

  ghost predicate Inv(s: State) {
    && s.taken <= |s.pub|
    && ChainOk(s.heap, s.head, s.tail, s.chain, |s.pub| - s.taken)
    && LinksOk(s.heap, s.chain, s.pub, s.taken, s.producers)
    && SlotsOk(s.heap, s.chain, s.pub, s.taken)
    && HeadOk(s.heap, s.head, s.pub, s.taken, s.out, Owes(s.consumer))
    && ProducersOk(s.heap, s.chain, s.pub, s.taken, s.producers)
    && NoLeak(s.heap, s.chain, s.producers, s.consumer)
    && ConsumerOk(s.heap, s.head, s.tail, s.taken, s.consumer)
    && !s.fault
  }

  lemma InitInv(s: State)
    requires Init(s)
    ensures Inv(s)
  {
    assert s.chain[0] in s.chain;
    assert Owns(s.chain, s.producers, s.consumer, s.head, Chained);
  }

  // ---------- Heap changes that the chain does not see ----------

  ghost predicate Agree(heap: Heap, heap': Heap, chain: seq<Addr>) {
    forall i :: 0 <= i < |chain| ==> chain[i] in heap' && chain[i] in heap && heap'[chain[i]] == heap[chain[i]]
  }

  lemma ChainFrame(s: State, heap': Heap)
    requires Inv(s) && Agree(s.heap, heap', s.chain)
    ensures ChainOk(heap', s.head, s.tail, s.chain, |s.pub| - s.taken)
    ensures SlotsOk(heap', s.chain, s.pub, s.taken)
    ensures HeadOk(heap', s.head, s.pub, s.taken, s.out, Owes(s.consumer))
  {
  }

  lemma LinksFrame(heap: Heap, heap': Heap, chain: seq<Addr>, pub: seq<Entry>, taken: nat, producers: map<Tid,
      Producer>, producers': map<Tid, Producer>)
    requires LinksOk(heap, chain, pub, taken, producers) && Agree(heap, heap', chain)
    requires forall t :: t in producers && producers[t].Published? ==> t in producers' && producers'[t] == producers[t]
    ensures LinksOk(heap', chain, pub, taken, producers')
  {
    forall i | 0 <= i < |chain| - 1 ensures Joined(heap', chain, pub, taken, producers', i) {
      assert Joined(heap, chain, pub, taken, producers, i);
    }
  }

  lemma NoLeakFrame(heap: Heap, heap': Heap, chain: seq<Addr>, producers: map<Tid, Producer>, producers': map<Tid,
      Producer>, c: Consumer, c': Consumer)
    requires NoLeak(heap, chain, producers, c) && heap'.Keys == heap.Keys
    requires forall a, o :: Owns(chain, producers, c, a, o) <==> Owns(chain, producers', c', a, o)
    ensures NoLeak(heap', chain, producers', c')
  {
    forall a | a in heap' ensures exists o :: Owns(chain, producers', c', a, o) {
      var o :| Owns(chain, producers, c, a, o);
      assert Owns(chain, producers', c', a, o);
    }
  }

  // ---------- Every step keeps the invariant ----------

  lemma AllocateKeeps(s: State, t: Tid, a: Addr, v: Value)
    requires Inv(s) && Enabled(s, Allocate(t, a, v))
    ensures Inv(Apply(s, Allocate(t, a, v)))
  {
    var s' := Apply(s, Allocate(t, a, v));
    assert Agree(s.heap, s'.heap, s.chain);
    ChainFrame(s, s'.heap);
    LinksFrame(s.heap, s'.heap, s.chain, s.pub, s.taken, s.producers, s'.producers);
    AllocateProducers(s, t, a, v);
    AllocateOwners(s, t, a, v);
  }

  lemma AllocateProducers(s: State, t: Tid, a: Addr, v: Value)
    requires Inv(s) && Enabled(s, Allocate(t, a, v))
    ensures var s' := Apply(s, Allocate(t, a, v)); ProducersOk(s'.heap, s'.chain, s'.pub, s'.taken, s'.producers)
  {
    var s' := Apply(s, Allocate(t, a, v));
    assert a !in s.chain;
    forall u | u in s'.producers ensures ProducerOk(s'.heap, s.chain, s.pub, s.taken, u, s'.producers[u]) {
      if u != t { assert ProducerOk(s.heap, s.chain, s.pub, s.taken, u, s.producers[u]); }
    }
  }

  lemma AllocateOwners(s: State, t: Tid, a: Addr, v: Value)
    requires Inv(s) && Enabled(s, Allocate(t, a, v))
    ensures var s' := Apply(s, Allocate(t, a, v)); NoLeak(s'.heap, s'.chain, s'.producers, s'.consumer)
  {
    var s' := Apply(s, Allocate(t, a, v));
    forall x, o | Owns(s.chain, s'.producers, s.consumer, x, o)
      ensures if x == a then o == Producing(t) else Owns(s.chain, s.producers, s.consumer, x, o)
    {
      OwnedIsLive(s, x, o);
    }
    forall x | x in s'.heap ensures exists o :: Owns(s.chain, s'.producers, s.consumer, x, o) {
      if x == a {
        assert Owns(s.chain, s'.producers, s.consumer, a, Producing(t));
      } else {
        var o :| Owns(s.chain, s.producers, s.consumer, x, o);
        assert Owns(s.chain, s'.producers, s.consumer, x, o);
      }
    }
  }

  /** A producer's own node, a chain node and the node about to be freed are all still allocated. */
  lemma OwnedIsLive(s: State, a: Addr, o: Owner)
    requires Inv(s)
    ensures Owns(s.chain, s.producers, s.consumer, a, o) ==> a in s.heap
  {
    if o.Producing? && o.t in s.producers {
      assert ProducerOk(s.heap, s.chain, s.pub, s.taken, o.t, s.producers[o.t]);
    }
  }

  /** Loading the tail, or a failed CAS, only refreshes what one producer has seen. */
  lemma ReloadKeeps(s: State, t: Tid)
    requires Inv(s) && t in s.producers && !s.producers[t].Published?
    ensures Inv(s.(producers := s.producers[t := Loaded(s.producers[t].node, s.tail)]))
  {
    var producers' := s.producers[t := Loaded(s.producers[t].node, s.tail)];
    LinksFrame(s.heap, s.heap, s.chain, s.pub, s.taken, s.producers, producers');
    ReloadProducers(s.heap, s.chain, s.pub, s.taken, s.producers, t, s.tail);
    ReloadOwners(s.heap, s.chain, s.producers, s.consumer, t, s.tail);
  }

  lemma ReloadProducers(heap: Heap, chain: seq<Addr>, pub: seq<Entry>, taken: nat, producers: map<Tid, Producer>,
      t: Tid, tail: Option<Addr>)
    requires ProducersOk(heap, chain, pub, taken, producers) && t in producers && !producers[t].Published?
    ensures ProducersOk(heap, chain, pub, taken, producers[t := Loaded(producers[t].node, tail)])
  {
    var producers' := producers[t := Loaded(producers[t].node, tail)];
    forall u | u in producers' ensures ProducerOk(heap, chain, pub, taken, u, producers'[u]) {
      assert ProducerOk(heap, chain, pub, taken, u, producers[u]);
    }
  }

  lemma ReloadOwners(heap: Heap, chain: seq<Addr>, producers: map<Tid, Producer>, c: Consumer, t: Tid,
      tail: Option<Addr>)
    requires NoLeak(heap, chain, producers, c) && t in producers && !producers[t].Published?
    ensures NoLeak(heap, chain, producers[t := Loaded(producers[t].node, tail)], c)
  {
    NoLeakFrame(heap, heap, chain, producers, producers[t := Loaded(producers[t].node, tail)], c, c);
  }

  lemma GiveUpKeeps(s: State, t: Tid)
    requires Inv(s) && Enabled(s, GiveUp(t))
    ensures Inv(Apply(s, GiveUp(t)))
  {
    var n := s.producers[t].node;
    assert ProducerOk(s.heap, s.chain, s.pub, s.taken, t, s.producers[t]);
    GiveUpFacts(s, t, n);
    GiveUpOwners(s, t, n);
    assert Apply(s, GiveUp(t)) == s.(heap := s.heap - {n}, producers := s.producers - {t});
  }

  lemma GiveUpOwners(s: State, t: Tid, n: Addr)
    requires Inv(s) && Owns(s.chain, s.producers, s.consumer, n, Producing(t))
    ensures ProducersOk(s.heap - {n}, s.chain, s.pub, s.taken, s.producers - {t})
    ensures NoLeak(s.heap - {n}, s.chain, s.producers - {t}, s.consumer)
  {
    FreeProducers(s, n, Producing(t), s.producers - {t});
    FreeOwners(s, n, Producing(t), s.producers - {t}, s.consumer);
  }

  /** What the chain and the consumer see of a node that its producer discards: nothing. */
  lemma GiveUpFacts(s: State, t: Tid, n: Addr)
    requires Inv(s) && Enabled(s, GiveUp(t)) && n == s.producers[t].node && n !in s.chain
    ensures Owns(s.chain, s.producers, s.consumer, n, Producing(t))
    ensures ChainOk(s.heap - {n}, s.head, s.tail, s.chain, |s.pub| - s.taken)
    ensures SlotsOk(s.heap - {n}, s.chain, s.pub, s.taken)
    ensures HeadOk(s.heap - {n}, s.head, s.pub, s.taken, s.out, Owes(s.consumer))
    ensures LinksOk(s.heap - {n}, s.chain, s.pub, s.taken, s.producers - {t})
    ensures ConsumerOk(s.heap - {n}, s.head, s.tail, s.taken, s.consumer)
  {
    assert Owns(s.chain, s.producers, s.consumer, n, Producing(t));
    ChainFrame(s, s.heap - {n});
    LinksFrame(s.heap, s.heap - {n}, s.chain, s.pub, s.taken, s.producers, s.producers - {t});
    if s.consumer.Drop? { assert Owns(s.chain, s.producers, s.consumer, s.consumer.h, Dropping); }
    assert s.head in s.chain;
  }

  /** Freeing a node leaves the claims of every producer that does not own it in place. */
  lemma FreeProducers(s: State, n: Addr, o: Owner, producers': map<Tid, Producer>)
    requires Inv(s) && o != Chained && Owns(s.chain, s.producers, s.consumer, n, o)
    requires producers' == if o.Producing? then s.producers - {o.t} else s.producers
    ensures ProducersOk(s.heap - {n}, s.chain, s.pub, s.taken, producers')
  {
    forall u | u in producers' ensures ProducerOk(s.heap - {n}, s.chain, s.pub, s.taken, u, producers'[u]) {
      assert ProducerOk(s.heap, s.chain, s.pub, s.taken, u, s.producers[u]);
      if s.producers[u].Published? {
        assert s.producers[u].pred in s.chain;
        assert Owns(s.chain, s.producers, s.consumer, s.producers[u].pred, Chained);
      } else {
        assert Owns(s.chain, s.producers, s.consumer, s.producers[u].node, Producing(u));
      }
    }
  }

  lemma FreeOwners(s: State, n: Addr, o: Owner, producers': map<Tid, Producer>, c': Consumer)
    requires Inv(s) && o != Chained && Owns(s.chain, s.producers, s.consumer, n, o)
    requires producers' == if o.Producing? then s.producers - {o.t} else s.producers
    requires c' == if o.Dropping? then Move(s.consumer.n) else s.consumer
    ensures NoLeak(s.heap - {n}, s.chain, producers', c')
  {
    forall a, w ensures Owns(s.chain, producers', c', a, w) ==> Owns(s.chain, s.producers, s.consumer, a, w) {
    }
    forall a | a in s.heap - {n} ensures exists w :: Owns(s.chain, producers', c', a, w) {
      var w :| Owns(s.chain, s.producers, s.consumer, a, w);
      assert Owns(s.chain, producers', c', a, w);
    }
  }

  /** The address a successful CAS replaces is the last node of the chain, whatever lived there before. */
  lemma CasSeesLast(s: State, t: Tid)
    requires Inv(s) && Enabled(s, CasOk(t))
    ensures s.producers[t].seen.value == s.chain[|s.chain| - 1]
    ensures s.heap[s.chain[|s.chain| - 1]].next == None
    ensures s.producers[t].node in s.heap && s.heap[s.producers[t].node].slot.Live?
    ensures s.producers[t].node !in s.chain && s.heap[s.producers[t].node].next == None
  {
    assert ProducerOk(s.heap, s.chain, s.pub, s.taken, t, s.producers[t]);
  }

  lemma CasOkKeeps(s: State, t: Tid)
    requires Inv(s) && Enabled(s, CasOk(t))
    ensures Inv(Apply(s, CasOk(t)))
  {
    CasSeesLast(s, t);
    CasOkLinks(s, t);
    CasOkProducers(s, t);
    CasOkOwners(s, t);
    CasOkChain(s, t);
  }

  lemma CasOkChain(s: State, t: Tid)
    requires Inv(s) && Enabled(s, CasOk(t))
    ensures var s' := Apply(s, CasOk(t));
      && ChainOk(s'.heap, s'.head, s'.tail, s'.chain, |s'.pub| - s'.taken)
      && SlotsOk(s'.heap, s'.chain, s'.pub, s'.taken)
      && HeadOk(s'.heap, s'.head, s'.pub, s'.taken, s'.out, Owes(s'.consumer))
      && ConsumerOk(s'.heap, s'.head, s'.tail, s'.taken, s'.consumer)
  {
    CasSeesLast(s, t);
    var n := s.producers[t].node;
    ChainGrows(s.heap, s.head, s.tail, s.chain, |s.pub| - s.taken, n);
    SlotsGrow(s.heap, s.chain, s.pub, s.taken, n, Entry(t, s.heap[n].slot.value));
    HeadKept(s.heap, s.head, s.pub, s.taken, s.out, Owes(s.consumer), Entry(t, s.heap[n].slot.value));
    assert s.chain[0] in s.chain;
    ConsumerKept(s.heap, s.head, s.tail, s.taken, s.consumer, n);
  }

  lemma ChainGrows(heap: Heap, head: Addr, tail: Option<Addr>, chain: seq<Addr>, left: int, n: Addr)
    requires ChainOk(heap, head, tail, chain, left) && n in heap && n !in chain
    ensures ChainOk(heap, head, Some(n), chain + [n], left + 1)
  {
  }

  lemma SlotsGrow(heap: Heap, chain: seq<Addr>, pub: seq<Entry>, taken: nat, n: Addr, x: Entry)
    requires SlotsOk(heap, chain, pub, taken) && |chain| == |pub| - taken + 1
    requires n in heap && heap[n].slot == Live(x.value)
    ensures SlotsOk(heap, chain + [n], pub + [x], taken)
  {
  }

  lemma HeadKept(heap: Heap, head: Addr, pub: seq<Entry>, taken: nat, out: seq<Value>, owes: bool, x: Entry)
    requires HeadOk(heap, head, pub, taken, out, owes) && (owes ==> 0 < taken)
    ensures HeadOk(heap, head, pub + [x], taken, out, owes)
  {
  }

  lemma ConsumerKept(heap: Heap, head: Addr, tail: Option<Addr>, taken: nat, c: Consumer, n: Addr)
    requires ConsumerOk(heap, head, tail, taken, c) && tail.Some? && n != head
    ensures ConsumerOk(heap, head, Some(n), taken, c)
  {
  }

  lemma CasOkLinks(s: State, t: Tid)
    requires Inv(s) && Enabled(s, CasOk(t))
    ensures var s' := Apply(s, CasOk(t)); LinksOk(s'.heap, s'.chain, s'.pub, s'.taken, s'.producers)
  {
    CasSeesLast(s, t);
    var n := s.producers[t].node;
    LinksGrow(s.heap, s.chain, s.pub, s.taken, s.producers, t, n, Entry(t, s.heap[n].slot.value));
  }

  lemma LinksGrow(heap: Heap, chain: seq<Addr>, pub: seq<Entry>, taken: nat, producers: map<Tid, Producer>, t: Tid,
      n: Addr, x: Entry)
    requires LinksOk(heap, chain, pub, taken, producers) && |chain| == |pub| - taken + 1
    requires t in producers && !producers[t].Published? && x.tid == t
    requires n in heap && heap[n].next == None
    ensures LinksOk(heap, chain + [n], pub + [x], taken, producers[t := Published(n, chain[|chain| - 1], |pub|)])
  {
    var chain', producers' := chain + [n], producers[t := Published(n, chain[|chain| - 1], |pub|)];
    forall i | 0 <= i < |chain'| - 1 ensures Joined(heap, chain', pub + [x], taken, producers', i) {
      if i < |chain| - 1 { assert Joined(heap, chain, pub, taken, producers, i); }
    }
  }

  lemma CasOkProducers(s: State, t: Tid)
    requires Inv(s) && Enabled(s, CasOk(t))
    ensures var s' := Apply(s, CasOk(t)); ProducersOk(s'.heap, s'.chain, s'.pub, s'.taken, s'.producers)
  {
    CasSeesLast(s, t);
    var n := s.producers[t].node;
    assert Owns(s.chain, s.producers, s.consumer, n, Producing(t));
    forall u | u in s.producers && u != t && !s.producers[u].Published? ensures s.producers[u].node != n {
      assert Owns(s.chain, s.producers, s.consumer, s.producers[u].node, Producing(u));
    }
    ProducersGrow(s.heap, s.chain, s.pub, s.taken, s.producers, t, Entry(t, s.heap[n].slot.value));
  }

  lemma ProducersGrow(heap: Heap, chain: seq<Addr>, pub: seq<Entry>, taken: nat, producers: map<Tid, Producer>,
      t: Tid, x: Entry)
    requires ProducersOk(heap, chain, pub, taken, producers) && 0 < |chain| == |pub| - taken + 1
    requires t in producers && !producers[t].Published? && x.tid == t
    requires chain[|chain| - 1] in heap && heap[chain[|chain| - 1]].next == None
    requires forall u :: u in producers && u != t && !producers[u].Published? ==> producers[u].node != producers[t].node
    ensures ProducersOk(heap, chain + [producers[t].node], pub + [x], taken,
      producers[t := Published(producers[t].node, chain[|chain| - 1], |pub|)])
  {
    var producers' := producers[t := Published(producers[t].node, chain[|chain| - 1], |pub|)];
    forall u | u in producers' ensures ProducerOk(heap, chain + [producers[t].node], pub + [x], taken, u, producers'[u]) {
      if u != t { assert ProducerOk(heap, chain, pub, taken, u, producers[u]); }
    }
  }

  lemma CasOkOwners(s: State, t: Tid)
    requires Inv(s) && Enabled(s, CasOk(t))
    ensures var s' := Apply(s, CasOk(t)); NoLeak(s'.heap, s'.chain, s'.producers, s'.consumer)
  {
    CasSeesLast(s, t);
    var s' := Apply(s, CasOk(t));
    var n := s.producers[t].node;
    assert Owns(s.chain, s.producers, s.consumer, n, Producing(t));
    forall a, o | Owns(s'.chain, s'.producers, s.consumer, a, o)
      ensures if a == n then o == Chained else Owns(s.chain, s.producers, s.consumer, a, o)
    {
      if a == n && o != Chained { assert Owns(s.chain, s.producers, s.consumer, a, o); }
    }
    forall a | a in s'.heap ensures exists o :: Owns(s'.chain, s'.producers, s.consumer, a, o) {
      if a == n {
        assert s'.chain[|s.chain|] == n;
        assert Owns(s'.chain, s'.producers, s.consumer, a, Chained);
      } else {
        var o :| Owns(s.chain, s.producers, s.consumer, a, o);
        assert Owns(s'.chain, s'.producers, s.consumer, a, o);
      }
    }
  }

  /** The state after the store of `pred->next`, spelled out. */
  ghost predicate LinkStep(s: State, t: Tid, j: nat, heap': Heap, producers': map<Tid, Producer>) {
    && t in s.producers && s.producers[t].Published? && s.producers[t].index == s.taken + j
    && j + 1 < |s.chain| && s.producers[t].pred == s.chain[j] && s.producers[t].node == s.chain[j + 1]
    && s.chain[j] in s.heap && s.heap[s.chain[j]].next == None
    && heap' == s.heap[s.chain[j] := Node(Some(s.chain[j + 1]), s.heap[s.chain[j]].slot)]
    && producers' == s.producers - {t}
  }

  lemma LinkKeeps(s: State, t: Tid)
    requires Inv(s) && Enabled(s, Link(t))
    ensures Inv(Apply(s, Link(t)))
  {
    var s' := Apply(s, Link(t));
    assert ProducerOk(s.heap, s.chain, s.pub, s.taken, t, s.producers[t]);
    var j := s.producers[t].index - s.taken;
    assert LinkStep(s, t, j, s'.heap, s'.producers);
    LinkFacts(s, t, j, s'.heap, s'.producers);
  }

  lemma LinkFacts(s: State, t: Tid, j: nat, heap': Heap, producers': map<Tid, Producer>)
    requires Inv(s) && LinkStep(s, t, j, heap', producers')
    ensures Inv(s.(heap := heap', producers := producers'))
  {
    LinkChain(s, t, j, heap', producers');
    LinkLinks(s, t, j, heap', producers');
    LinkProducers(s, t, j, heap', producers');
    LinkOwners(s, t, j, heap', producers');
  }

  lemma LinkOwners(s: State, t: Tid, j: nat, heap': Heap, producers': map<Tid, Producer>)
    requires LinkStep(s, t, j, heap', producers') && NoLeak(s.heap, s.chain, s.producers, s.consumer)
    ensures NoLeak(heap', s.chain, producers', s.consumer)
  {
    NoLeakFrame(s.heap, heap', s.chain, s.producers, producers', s.consumer, s.consumer);
  }

  lemma LinkChain(s: State, t: Tid, j: nat, heap': Heap, producers': map<Tid, Producer>)
    requires Inv(s) && LinkStep(s, t, j, heap', producers')
    ensures ChainOk(heap', s.head, s.tail, s.chain, |s.pub| - s.taken)
    ensures SlotsOk(heap', s.chain, s.pub, s.taken)
    ensures HeadOk(heap', s.head, s.pub, s.taken, s.out, Owes(s.consumer))
    ensures ConsumerOk(heap', s.head, s.tail, s.taken, s.consumer)
  {
    LinkHeap(s.heap, s.head, s.tail, s.chain, |s.pub| - s.taken, j, heap');
    LinkSlots(s.heap, s.chain, s.pub, s.taken, j, heap');
    LinkHead(s.heap, s.head, s.chain, s.pub, s.taken, s.out, Owes(s.consumer), j, heap');
    LinkConsumer(s.heap, s.head, s.tail, s.chain, s.taken, s.consumer, j, heap');
  }

  /** The heap after storing the link behind chain node `j`. */
  ghost predicate LinkedAt(heap: Heap, chain: seq<Addr>, j: nat, heap': Heap) {
    && j + 1 < |chain| && chain[j] in heap && heap[chain[j]].next == None
    && heap' == heap[chain[j] := Node(Some(chain[j + 1]), heap[chain[j]].slot)]
  }

  lemma LinkHeap(heap: Heap, head: Addr, tail: Option<Addr>, chain: seq<Addr>, left: int, j: nat, heap': Heap)
    requires ChainOk(heap, head, tail, chain, left) && LinkedAt(heap, chain, j, heap')
    ensures ChainOk(heap', head, tail, chain, left)
  {
  }

  lemma LinkSlots(heap: Heap, chain: seq<Addr>, pub: seq<Entry>, taken: nat, j: nat, heap': Heap)
    requires SlotsOk(heap, chain, pub, taken) && LinkedAt(heap, chain, j, heap')
    ensures SlotsOk(heap', chain, pub, taken)
  {
  }

  lemma LinkHead(heap: Heap, head: Addr, chain: seq<Addr>, pub: seq<Entry>, taken: nat, out: seq<Value>, owes: bool,
      j: nat, heap': Heap)
    requires HeadOk(heap, head, pub, taken, out, owes) && LinkedAt(heap, chain, j, heap')
    ensures HeadOk(heap', head, pub, taken, out, owes)
  {
  }

  /** A link that the consumer has already seen is not the one being stored. */
  lemma LinkConsumer(heap: Heap, head: Addr, tail: Option<Addr>, chain: seq<Addr>, taken: nat, c: Consumer, j: nat,
      heap': Heap)
    requires ConsumerOk(heap, head, tail, taken, c) && LinkedAt(heap, chain, j, heap')
    ensures ConsumerOk(heap', head, tail, taken, c)
  {
  }

  lemma LinkLinks(s: State, t: Tid, j: nat, heap': Heap, producers': map<Tid, Producer>)
    requires Inv(s) && LinkStep(s, t, j, heap', producers')
    ensures LinksOk(heap', s.chain, s.pub, s.taken, producers')
  {
    forall i | 0 <= i < |s.chain| - 1 ensures Joined(heap', s.chain, s.pub, s.taken, producers', i) {
      assert Joined(s.heap, s.chain, s.pub, s.taken, s.producers, i);
      if i != j {
        assert s.chain[i] != s.chain[j];
      }
    }
  }

  lemma LinkProducers(s: State, t: Tid, j: nat, heap': Heap, producers': map<Tid, Producer>)
    requires Inv(s) && LinkStep(s, t, j, heap', producers')
    ensures ProducersOk(heap', s.chain, s.pub, s.taken, producers')
  {
    forall u | u in producers' ensures ProducerOk(heap', s.chain, s.pub, s.taken, u, producers'[u]) {
      LinkOther(s.heap, s.chain, s.pub, s.taken, t, s.producers[t], u, s.producers[u], j, heap');
    }
  }

  /** Storing one link disturbs no other producer: two publishers never share a predecessor. */
  lemma LinkOther(heap: Heap, chain: seq<Addr>, pub: seq<Entry>, taken: nat, t: Tid, p: Producer, u: Tid,
      q: Producer, j: nat, heap': Heap)
    requires Distinct(chain) && t != u && p.Published? && p.index == taken + j && j + 1 < |chain|
    requires ProducerOk(heap, chain, pub, taken, t, p) && ProducerOk(heap, chain, pub, taken, u, q)
    requires chain[j] in heap && heap' == heap[chain[j] := Node(Some(chain[j + 1]), heap[chain[j]].slot)]
    ensures ProducerOk(heap', chain, pub, taken, u, q)
  {
    if q.Published? {
      assert q.index != p.index;
      assert chain[q.index - taken] != chain[j];
    } else {
      assert chain[j] in chain;
    }
  }

  /** A load by the consumer changes nothing but the consumer. */
  lemma LoadKeeps(s: State)
    requires Inv(s) && !s.consumer.Free? && !s.consumer.Take? && !Owes(s.consumer)
    ensures Inv(ApplyConsume(s))
  {
    var s' := ApplyConsume(s);
    LoadConsumer(s);
    NoLeakFrame(s.heap, s.heap, s.chain, s.producers, s.producers, s.consumer, s'.consumer);
  }

  lemma LoadConsumer(s: State)
    requires s.head in s.heap && ConsumerOk(s.heap, s.head, s.tail, s.taken, s.consumer) && !s.fault
    requires !s.consumer.Free? && !s.consumer.Take? && !Owes(s.consumer)
    ensures var s' := ApplyConsume(s);
      && ConsumerOk(s.heap, s.head, s.tail, s.taken, s'.consumer)
      && !Owes(s'.consumer)
      && s' == s.(consumer := s'.consumer, asleep := s'.asleep)
  {
  }

  lemma TakeKeeps(s: State)
    requires Inv(s) && s.consumer.Take?
    ensures Inv(ApplyConsume(s))
  {
    TakeSeesSecond(s);
    TakeChain(s);
    LinksShrink(s.heap, s.chain, s.pub, s.taken, s.producers);
    TakeProducers(s);
    TakeOwners(s);
  }

  lemma LinksShrink(heap: Heap, chain: seq<Addr>, pub: seq<Entry>, taken: nat, producers: map<Tid, Producer>)
    requires LinksOk(heap, chain, pub, taken, producers) && |chain| > 1
    ensures LinksOk(heap, chain[1..], pub, taken + 1, producers)
  {
    var chain', taken' := chain[1..], taken + 1;
    forall i | 0 <= i < |chain'| - 1 ensures Joined(heap, chain', pub, taken', producers, i) {
      assert Joined(heap, chain, pub, taken, producers, i + 1);
      assert chain'[i] == chain[i + 1] && chain'[i + 1] == chain[i + 2];
    }
    assert chain'[|chain'| - 1] == chain[|chain| - 1];
  }

  /** What the consumer moves the head to is the second node of the chain. */
  lemma TakeSeesSecond(s: State)
    requires Inv(s) && s.consumer.Take?
    ensures |s.chain| > 1 && s.consumer.n == s.chain[1] && s.consumer.h == s.chain[0]
    ensures s.heap[s.chain[0]].next == Some(s.chain[1])
  {
    if |s.chain| > 1 { assert Joined(s.heap, s.chain, s.pub, s.taken, s.producers, 0); }
  }

  lemma TakeChain(s: State)
    requires Inv(s) && s.consumer.Take?
    ensures var s' := ApplyConsume(s);
      && s'.taken <= |s'.pub|
      && ChainOk(s'.heap, s'.head, s'.tail, s'.chain, |s'.pub| - s'.taken)
      && SlotsOk(s'.heap, s'.chain, s'.pub, s'.taken)
      && HeadOk(s'.heap, s'.head, s'.pub, s'.taken, s'.out, Owes(s'.consumer))
      && ConsumerOk(s'.heap, s'.head, s'.tail, s'.taken, s'.consumer)
  {
    TakeSeesSecond(s);
    ChainShrinks(s.heap, s.head, s.tail, s.chain, |s.pub| - s.taken);
    SlotsShrink(s.heap, s.chain, s.pub, s.taken);
    HeadTaken(s.heap, s.head, s.chain, s.pub, s.taken, s.out);
  }

  lemma ChainShrinks(heap: Heap, head: Addr, tail: Option<Addr>, chain: seq<Addr>, left: int)
    requires ChainOk(heap, head, tail, chain, left) && |chain| > 1
    ensures ChainOk(heap, chain[1], tail, chain[1..], left - 1) && chain[1] != head
  {
  }

  lemma SlotsShrink(heap: Heap, chain: seq<Addr>, pub: seq<Entry>, taken: nat)
    requires SlotsOk(heap, chain, pub, taken) && |chain| > 1
    ensures SlotsOk(heap, chain[1..], pub, taken + 1)
  {
    var chain' := chain[1..];
    forall i | 1 <= i < |chain'| ensures SlotOk(heap, chain'[i], pub, taken + 1 + i) {
      assert chain'[i] == chain[i + 1] && SlotOk(heap, chain[i + 1], pub, taken + (i + 1));
    }
  }

  lemma HeadTaken(heap: Heap, head: Addr, chain: seq<Addr>, pub: seq<Entry>, taken: nat, out: seq<Value>)
    requires HeadOk(heap, head, pub, taken, out, false) && SlotsOk(heap, chain, pub, taken) && |chain| > 1
    ensures HeadOk(heap, chain[1], pub, taken + 1, out, true) && head in heap && heap[head].slot == Raw
  {
    assert SlotOk(heap, chain[1], pub, taken + 1);
  }

  lemma TakeProducers(s: State)
    requires Inv(s) && s.consumer.Take?
    ensures var s' := ApplyConsume(s); ProducersOk(s'.heap, s'.chain, s'.pub, s'.taken, s'.producers)
  {
    TakeSeesSecond(s);
    var s' := ApplyConsume(s);
    forall u | u in s'.producers ensures ProducerOk(s'.heap, s'.chain, s'.pub, s'.taken, u, s'.producers[u]) {
      assert ProducerOk(s.heap, s.chain, s.pub, s.taken, u, s.producers[u]);
    }
  }

  lemma TakeOwners(s: State)
    requires Inv(s) && s.consumer.Take?
    ensures var s' := ApplyConsume(s); NoLeak(s'.heap, s'.chain, s'.producers, s'.consumer)
  {
    TakeSeesSecond(s);
    var s' := ApplyConsume(s);
    assert s.chain == [s.head] + s'.chain;
    forall a, o | Owns(s'.chain, s'.producers, s'.consumer, a, o)
      ensures if a == s.head then o == Dropping else Owns(s.chain, s.producers, s.consumer, a, o)
    {
      assert s.head in s.chain;
      assert Owns(s.chain, s.producers, s.consumer, s.head, Chained);
      if a == s.head && o.Producing? { assert Owns(s.chain, s.producers, s.consumer, a, o); }
    }
    forall a | a in s'.heap ensures exists o :: Owns(s'.chain, s'.producers, s'.consumer, a, o) {
      if a == s.head {
        assert Owns(s'.chain, s'.producers, s'.consumer, a, Dropping);
      } else {
        var o :| Owns(s.chain, s.producers, s.consumer, a, o);
        assert Owns(s'.chain, s'.producers, s'.consumer, a, o);
      }
    }
  }

  lemma DropKeeps(s: State)
    requires Inv(s) && s.consumer.Drop?
    ensures Inv(ApplyConsume(s))
  {
    var h := s.consumer.h;
    assert Owns(s.chain, s.producers, s.consumer, h, Dropping);
    DropChain(s, h);
    FreeProducers(s, h, Dropping, s.producers);
    FreeOwners(s, h, Dropping, s.producers, Move(s.consumer.n));
  }

  lemma DropChain(s: State, h: Addr)
    requires Inv(s) && s.consumer.Drop? && h == s.consumer.h
    ensures ChainOk(s.heap - {h}, s.head, s.tail, s.chain, |s.pub| - s.taken)
    ensures SlotsOk(s.heap - {h}, s.chain, s.pub, s.taken)
    ensures HeadOk(s.heap - {h}, s.head, s.pub, s.taken, s.out, true)
    ensures LinksOk(s.heap - {h}, s.chain, s.pub, s.taken, s.producers)
  {
    assert Owns(s.chain, s.producers, s.consumer, h, Dropping);
    forall i | 0 <= i < |s.chain| ensures s.chain[i] != h {
      assert s.chain[i] in s.chain;
      assert Owns(s.chain, s.producers, s.consumer, s.chain[i], Chained);
    }
    ChainFrame(s, s.heap - {h});
    LinksFrame(s.heap, s.heap - {h}, s.chain, s.pub, s.taken, s.producers, s.producers);
  }

  lemma MoveKeeps(s: State)
    requires Inv(s) && s.consumer.Move?
    ensures Inv(ApplyConsume(s))
  {
    var heap' := ApplyConsume(s).heap;
    MoveChain(s);
    LinksSlot(s.heap, heap', s.chain, s.pub, s.taken, s.producers, s.head);
    ProducersSlot(s.heap, heap', s.chain, s.pub, s.taken, s.producers, s.head);
    MoveOwners(s.heap, heap', s.chain, s.producers, s.consumer);
  }

  lemma MoveOwners(heap: Heap, heap': Heap, chain: seq<Addr>, producers: map<Tid, Producer>, c: Consumer)
    requires NoLeak(heap, chain, producers, c) && heap'.Keys == heap.Keys && c.Move?
    ensures NoLeak(heap', chain, producers, Free)
  {
    NoLeakFrame(heap, heap', chain, producers, producers, c, Free);
  }

  /** Emptying the slot of one node concerns no link. */
  lemma LinksSlot(heap: Heap, heap': Heap, chain: seq<Addr>, pub: seq<Entry>, taken: nat, producers: map<Tid,
      Producer>, n: Addr)
    requires LinksOk(heap, chain, pub, taken, producers)
    requires n in heap && heap' == heap[n := heap[n].(slot := Raw)]
    ensures LinksOk(heap', chain, pub, taken, producers)
  {
    forall i | 0 <= i < |chain| - 1 ensures Joined(heap', chain, pub, taken, producers, i) {
      assert Joined(heap, chain, pub, taken, producers, i);
    }
  }

  /** Emptying the slot of a chain node concerns no producer. */
  lemma ProducersSlot(heap: Heap, heap': Heap, chain: seq<Addr>, pub: seq<Entry>, taken: nat, producers: map<Tid,
      Producer>, n: Addr)
    requires ProducersOk(heap, chain, pub, taken, producers)
    requires n in heap && n in chain && heap' == heap[n := heap[n].(slot := Raw)]
    ensures ProducersOk(heap', chain, pub, taken, producers)
  {
    forall u | u in producers ensures ProducerOk(heap', chain, pub, taken, u, producers[u]) {
      assert ProducerOk(heap, chain, pub, taken, u, producers[u]);
    }
  }

  lemma MoveChain(s: State)
    requires Inv(s) && s.consumer.Move?
    ensures var s' := ApplyConsume(s);
      && !s'.fault
      && ChainOk(s'.heap, s'.head, s'.tail, s'.chain, |s'.pub| - s'.taken)
      && SlotsOk(s'.heap, s'.chain, s'.pub, s'.taken)
      && HeadOk(s'.heap, s'.head, s'.pub, s'.taken, s'.out, Owes(s'.consumer))
      && s.head in s.chain && s.head in s.heap && s'.heap == s.heap[s.head := s.heap[s.head].(slot := Raw)]
  {
    assert s.chain[0] in s.chain;
  }

  lemma StepKeepsInv(s: State, e: Event)
    requires Inv(s) && Enabled(s, e)
    ensures Inv(Apply(s, e))
  {
    match e
    case Allocate(t, a, v) => AllocateKeeps(s, t, a, v);
    case LoadTail(t) => ReloadKeeps(s, t);
    case CasFail(t) => ReloadKeeps(s, t);
    case GiveUp(t) => GiveUpKeeps(s, t);
    case CasOk(t) => CasOkKeeps(s, t);
    case Link(t) => LinkKeeps(s, t);
    case Consume =>
      if s.consumer.Take? { TakeKeeps(s); }
      else if s.consumer.Drop? { DropKeeps(s); }
      else if s.consumer.Move? { MoveKeeps(s); }
      else { LoadKeeps(s); }
    case _ => WaitersKeep(s, e);
  }

  lemma WaitersKeep(s: State, e: Event)
    requires Inv(s) && Enabled(s, e) && (e.Lock? || e.Wake? || e.Relock? || e.Expire? || e.Stop?)
    ensures Inv(Apply(s, e))
  {
    if !e.Stop? {
      NoLeakFrame(s.heap, s.heap, s.chain, s.producers, s.producers, s.consumer, Apply(s, e).consumer);
    }
  }

  lemma InvIsInductive()
    ensures Runs.Inductive(Init, Next, Inv)
  {
    forall s | Init(s) ensures Inv(s) { InitInv(s); }
    forall s, s' | Inv(s) && Next(s, s') ensures Inv(s') {
      var e :| Enabled(s, e) && s' == Apply(s, e);
      StepKeepsInv(s, e);
    }
  }

  lemma RunInv(b: seq<State>, k: nat)
    requires IsRun(b) && k < |b|
    ensures Inv(b[k])
  {
    InvIsInductive();
    Runs.InvariantAt(b, Init, Next, Inv, k);
  }

  lemma ReachableInv(s: State)
    requires Reachable(s)
    ensures Inv(s)
  {
    InvIsInductive();
    Runs.ReachableInvariant(s, Init, Next, Inv);
  }

  lemma StepReachable(s: State, e: Event)
    requires Reachable(s) && Enabled(s, e)
    ensures Reachable(Apply(s, e)) && !Apply(s, e).fault
  {
    assert Next(s, Apply(s, e));
    Runs.StepIsReachable(s, Apply(s, e), Init, Next);
    ReachableInv(Apply(s, e));
  }
}
