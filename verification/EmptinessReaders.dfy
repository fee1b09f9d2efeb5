/**
 `maybe_empty` by its two loads, next to all other accesses of the queue. The reader holds no lock,
 so a consumer may delete the head the reader loaded before the reader loads the link behind it.
 */
module EmptinessReaders {
  import opened AtomicQueues
  import opened AtomicQueueTheorems
  import opened Options
  import Runs

  /** A reader between its loads: the head it loaded, how many values had been taken by then, and
      whether that node has been freed since. */
  datatype Reader = Reader(head: Addr, at: nat, freed: bool)

  datatype Shared = Shared(queue: State, readers: map<Tid, Reader>)

  datatype Access = OfQueue(e: Event) | LoadHead(t: Tid) | LoadNext(t: Tid)

  ghost predicate Begins(s: Shared) {
    Init(s.queue) && s.readers == map[]
  }

  predicate Possible(s: Shared, a: Access) {
    match a
    case OfQueue(e) => Enabled(s.queue, e)
    case LoadHead(t) => t !in s.readers
    case LoadNext(t) => t in s.readers
  }

  function After(s: Shared, a: Access): Shared
    requires Possible(s, a)
  {
    match a
    case OfQueue(e) =>
      var queue' := Apply(s.queue, e);
      Shared(queue', Watched(s.readers, s.queue.heap, queue'.heap))
    case LoadHead(t) => s.(readers := s.readers[t := Reader(s.queue.head, s.queue.taken, false)])
    case LoadNext(t) => s.(readers := s.readers - {t})
  }

  function Watched(readers: map<Tid, Reader>, heap: Heap, heap': Heap): map<Tid, Reader> {
    map t | t in readers :: readers[t].(freed := readers[t].freed || (readers[t].head in heap && readers[t].head !in heap'))
  }

  ghost predicate Moves(s: Shared, s': Shared) {
    exists a :: Possible(s, a) && s' == After(s, a)
  }

  ghost predicate Occurs(s: Shared) {
    Runs.Reachable(s, Begins, Moves)
  }

  /** How many heads the consumers have deleted. */
  function Deleted(taken: nat, c: Consumer): int {
    if c.Drop? then taken - 1 else taken
  }

  /** A node that was not freed is the head still, or the one head whose deletion is due next. */
  ghost predicate ReaderOk(head: Addr, taken: nat, c: Consumer, r: Reader) {
    if r.freed then r.at < Deleted(taken, c)
    else (taken == r.at && head == r.head) || (taken == r.at + 1 && c.Drop? && c.h == r.head)
  }

  ghost predicate SharedInv(s: Shared) {
    Inv(s.queue) && forall t :: t in s.readers ==> ReaderOk(s.queue.head, s.queue.taken, s.queue.consumer, s.readers[t])
  }

  lemma ReaderKept(q: State, e: Event, r: Reader)
    requires Inv(q) && Enabled(q, e) && ReaderOk(q.head, q.taken, q.consumer, r)
    ensures var q' := Apply(q, e);
      ReaderOk(q'.head, q'.taken, q'.consumer, r.(freed := r.freed || (r.head in q.heap && r.head !in q'.heap)))
  {
    match e
    case GiveUp(t) => GiveUpFreesAnother(q, t, r);
    case CasOk(t) => CasSeesLast(q, t);
    case Link(t) => var j := LinkPlace(q, t);
    case Consume => ReaderBesideConsumer(q, r);
    case _ =>
  }

  /** A node that a producer discards is not the one a reader looks at. */
  lemma GiveUpFreesAnother(q: State, t: Tid, r: Reader)
    requires Inv(q) && Enabled(q, GiveUp(t)) && ReaderOk(q.head, q.taken, q.consumer, r)
    ensures var q' := Apply(q, GiveUp(t));
      ReaderOk(q'.head, q'.taken, q'.consumer, r.(freed := r.freed || (r.head in q.heap && r.head !in q'.heap)))
  {
    var n := q.producers[t].node;
    assert ProducerOk(q.heap, q.chain, q.pub, q.taken, t, q.producers[t]);
    assert Owns(q.chain, q.producers, q.consumer, n, Producing(t));
    assert q.chain[0] in q.chain;
    if q.consumer.Drop? { assert Owns(q.chain, q.producers, q.consumer, q.consumer.h, Dropping); }
  }

  lemma ReaderBesideConsumer(q: State, r: Reader)
    requires Inv(q) && !q.consumer.Free? && ReaderOk(q.head, q.taken, q.consumer, r)
    ensures var q' := ApplyConsume(q);
      ReaderOk(q'.head, q'.taken, q'.consumer, r.(freed := r.freed || (r.head in q.heap && r.head !in q'.heap)))
  {
    if q.consumer.Take? {
      TakeSeesSecond(q);
    } else if !Owes(q.consumer) {
      LoadConsumer(q);
    } else if q.consumer.Move? {
      MoveChain(q);
    }
  }

  lemma MovesKeepInv(s: Shared, a: Access)
    requires SharedInv(s) && Possible(s, a)
    ensures SharedInv(After(s, a))
  {
    if a.OfQueue? {
      StepKeepsInv(s.queue, a.e);
      var s' := After(s, a);
      forall t | t in s'.readers ensures ReaderOk(s'.queue.head, s'.queue.taken, s'.queue.consumer, s'.readers[t]) {
        ReaderKept(s.queue, a.e, s.readers[t]);
      }
    }
  }

  lemma OccursInv(s: Shared)
    requires Occurs(s)
    ensures SharedInv(s)
  {
    forall s | Begins(s) ensures SharedInv(s) { InitInv(s.queue); }
    forall s, s' | SharedInv(s) && Moves(s, s') ensures SharedInv(s') {
      var a :| Possible(s, a) && s' == After(s, a);
      MovesKeepInv(s, a);
    }
    Runs.ReachableInvariant(s, Begins, Moves, SharedInv);
  }

  // ---------- What every run guarantees ----------

  /** The second load touches a freed node, wherever that address is by now, exactly if a consumer
      has deleted a head since the first load. */
  lemma ReadsFreedIff(s: Shared, t: Tid)
    requires Occurs(s) && t in s.readers
    ensures s.readers[t].freed <==> s.readers[t].at < Deleted(s.queue.taken, s.queue.consumer)
    ensures !s.readers[t].freed ==> s.readers[t].head in s.queue.heap
  {
    OccursInv(s);
    assert s.queue.chain[0] in s.queue.chain;
  }

  /** A reader that finds its node alive reports "empty" only if the head has no link at that moment,
      and "not empty" only if the value behind the head it loaded was published and was not taken
      before its first load. */
  lemma LiveAnswerIsOneSided(s: Shared, t: Tid)
    requires Occurs(s) && t in s.readers && !s.readers[t].freed
    ensures s.readers[t].head in s.queue.heap && s.queue.head in s.queue.heap
    ensures s.queue.heap[s.readers[t].head].next.None? ==> MaybeEmpty(s.queue)
    ensures s.queue.heap[s.readers[t].head].next.Some? ==> s.readers[t].at < |s.queue.pub|
    ensures s.queue.heap[s.readers[t].head].next.Some? ==> s.readers[t].at < s.queue.taken || !MaybeEmpty(s.queue)
  {
    OccursInv(s);
    var r := s.readers[t];
    if s.queue.taken == r.at && s.queue.head == r.head {
      EmptyAgrees(s.queue);
    } else {
      DueHeadIsLinked(s.queue);
    }
  }

  /** The head whose deletion is due points to the head that replaced it. */
  lemma DueHeadIsLinked(q: State)
    requires Inv(q) && q.consumer.Drop?
    ensures q.consumer.h in q.heap && q.heap[q.consumer.h].next == Some(q.head)
  {
  }

  // ---------- When a read can go wrong ----------

  /** An access of any thread but reader `t`. */
  ghost predicate Besides(t: Tid, s: Shared, s': Shared) {
    exists a :: Possible(s, a) && a != LoadNext(t) && s' == After(s, a)
  }

  ghost function Beside(t: Tid): (Shared, Shared) -> bool {
    (s, s') => Besides(t, s, s')
  }

  /** Under some schedule of the other threads, a `maybe_empty` that begins now reads a freed node. */
  ghost predicate CanReadFreed(s: Shared, t: Tid)
    requires t !in s.readers
  {
    exists s' :: Runs.Follows(After(s, LoadHead(t)), s', Beside(t)) && t in s'.readers && s'.readers[t].freed
  }

  /** That is so exactly if the queue is not stopped or some published value has not been taken. */
  lemma CanReadFreedIff(s: Shared, t: Tid, v: Value)
    requires Occurs(s) && t !in s.readers
    ensures CanReadFreed(s, t) <==> s.queue.tail.Some? || s.queue.taken < |s.queue.pub|
  {
    OccursInv(s);
    MovesKeepInv(s, LoadHead(t));
    var from := After(s, LoadHead(t));
    if s.queue.tail.Some? || s.queue.taken < |s.queue.pub| {
      var s' := ReachFreed(from, t, v);
    } else if s' :| Runs.Follows(from, s', Beside(t)) && t in s'.readers && s'.readers[t].freed {
      DrainedForGood(from, s', t);
    }
  }

  /** The queue is stopped and drained; reader `t` has loaded its last head. */
  ghost predicate Drained(s: Shared, t: Tid) {
    && SharedInv(s) && s.queue.tail.None? && s.queue.taken == |s.queue.pub|
    && t in s.readers && s.readers[t].at == s.queue.taken
  }

  lemma DrainedStep(s: Shared, t: Tid, a: Access)
    requires Drained(s, t) && Possible(s, a) && a != LoadNext(t)
    ensures Drained(After(s, a), t)
  {
    MovesKeepInv(s, a);
    if a.OfQueue? {
      StepGrows(s.queue, a.e);
      if a.e.Consume? { NothingToTake(s.queue); }
      assert Apply(s.queue, a.e).pub == s.queue.pub;
    }
  }

  lemma NothingToTake(q: State)
    requires Inv(q) && q.taken == |q.pub| && !q.consumer.Free?
    ensures !q.consumer.Take? && ApplyConsume(q).taken == q.taken && ApplyConsume(q).pub == q.pub
  {
    if q.consumer.Take? { TakeSeesSecond(q); }
  }

  lemma DrainedForGood(from: Shared, s: Shared, t: Tid)
    requires Drained(from, t) && Runs.Follows(from, s, Beside(t))
    ensures t in s.readers && !s.readers[t].freed
  {
    var inv := (x: Shared) => Drained(x, t);
    forall x, x' | inv(x) && Beside(t)(x, x') ensures inv(x') {
      var a :| Possible(x, a) && a != LoadNext(t) && x' == After(x, a);
      DrainedStep(x, t, a);
    }
    Runs.FollowsInvariant(from, s, Beside(t), inv);
  }

  // ---------- The schedule that makes it go wrong ----------

  lemma Go(from: Shared, s: Shared, t: Tid, e: Event) returns (s': Shared)
    requires SharedInv(s) && Runs.Follows(from, s, Beside(t)) && t in s.readers && Enabled(s.queue, e)
    ensures SharedInv(s') && Runs.Follows(from, s', Beside(t)) && s'.queue == Apply(s.queue, e) && !s'.queue.fault
    ensures t in s'.readers && s'.readers[t].at == s.readers[t].at
  {
    s' := After(s, OfQueue(e));
    MovesKeepInv(s, OfQueue(e));
    assert Besides(t, s, s');
    Runs.FollowsStep(from, s, s', Beside(t));
  }

  /** A value is published if need be; the queue is stopped, which frees a consumer caught in its loop;
      the front link is stored; then a consumer takes the value. */
  lemma ReachFreed(from: Shared, t: Tid, v: Value) returns (s': Shared)
    requires SharedInv(from) && t in from.readers && from.readers[t].at == from.queue.taken
    requires from.queue.tail.Some? || from.queue.taken < |from.queue.pub|
    ensures Runs.Follows(from, s', Beside(t)) && t in s'.readers && s'.readers[t].freed
  {
    Runs.FollowsItself(from, Beside(t));
    s' := from;
    if s'.queue.taken == |s'.queue.pub| { s' := PublishOne(from, s', t, v); }
    s' := Go(from, s', t, Stop);
    s' := LinkFront(from, s', t);
    s' := UntilDeleted(from, s', t);
  }

  lemma {:induction false} Unused(ks: set<nat>) returns (n: nat)
    ensures forall k <- ks :: k < n
    decreases |ks|
  {
    if ks == {} {
      n := 0;
    } else {
      var k :| k in ks;
      var m := Unused(ks - {k});
      n := if m <= k then k + 1 else m;
      forall j | j in ks ensures j < n {
        if j != k { assert j in ks - {k}; }
      }
    }
  }

  lemma PublishOne(from: Shared, s: Shared, t: Tid, v: Value) returns (s': Shared)
    requires SharedInv(s) && Runs.Follows(from, s, Beside(t)) && t in s.readers && s.queue.tail.Some?
    ensures SharedInv(s') && Runs.Follows(from, s', Beside(t)) && t in s'.readers && s'.readers[t].at == s.readers[t].at
    ensures s'.queue.taken == s.queue.taken && |s'.queue.pub| == |s.queue.pub| + 1
  {
    var p := Unused(s.queue.producers.Keys);
    var a := Unused(s.queue.heap.Keys);
    s' := Go(from, s, t, Allocate(p, a, v));
    s' := Go(from, s', t, LoadTail(p));
    s' := Go(from, s', t, CasOk(p));
  }

  lemma LinkFront(from: Shared, s: Shared, t: Tid) returns (s': Shared)
    requires SharedInv(s) && Runs.Follows(from, s, Beside(t)) && t in s.readers && s.queue.tail.None?
    requires s.queue.taken < |s.queue.pub|
    ensures SharedInv(s') && Runs.Follows(from, s', Beside(t)) && t in s'.readers && s'.readers[t].at == s.readers[t].at
    ensures s'.queue.tail.None? && s'.queue.taken == s.queue.taken
    ensures s'.queue.head in s'.queue.heap && !MaybeEmpty(s'.queue)
  {
    var q := s.queue;
    assert Joined(q.heap, q.chain, q.pub, q.taken, q.producers, 0);
    s' := s;
    if MaybeEmpty(q) { s' := Go(from, s, t, Link(q.pub[q.taken].tid)); }
  }

  /** How many accesses of the consumer the deletion of the present head is away at most, in a stopped
      queue whose front is linked. */
  function Rank(c: Consumer): nat {
    match c
    case Take(_, _) => 1
    case TryNext(_) => 2
    case AtLoop(_, tl, nx) => if nx.Some? then 2 else if tl.None? then 8 else 10
    case AtNext(_, _) => 3
    case AtTail(_) => 4
    case AtHead(_) => 5
    case ReTail(_, nx) => if nx.Some? then 3 else 9
    case ReNext(_) => 4
    case ReHead => 5
    case Free => 6
    case Move(_) => 7
    case Drop(_, _) => 8
  }

  ghost predicate FrontDue(q: State) {
    q.tail.None? && q.head in q.heap && q.heap[q.head].next.Some?
  }

  lemma RankFallsAtLoad(q: State)
    requires ConsumerOk(q.heap, q.head, q.tail, q.taken, q.consumer) && FrontDue(q)
    requires !q.consumer.Free? && !q.consumer.Take? && !Owes(q.consumer)
    requires !ApplyConsume(q).fault
    ensures var q' := ApplyConsume(q); Rank(q'.consumer) < Rank(q.consumer) && FrontDue(q') && q'.taken == q.taken
  {
  }

  lemma RankFallsAtWrite(q: State)
    requires ConsumerOk(q.heap, q.head, q.tail, q.taken, q.consumer) && FrontDue(q)
    requires Owes(q.consumer)
    requires !ApplyConsume(q).fault
    ensures var q' := ApplyConsume(q); Rank(q'.consumer) < Rank(q.consumer) && FrontDue(q') && q'.taken == q.taken
  {
  }

  /** The store of the head and the deletion of the old one. */
  lemma TakeAndDelete(from: Shared, s: Shared, t: Tid) returns (s': Shared)
    requires SharedInv(s) && Runs.Follows(from, s, Beside(t)) && t in s.readers
    requires s.queue.consumer.Take? && s.readers[t].at == s.queue.taken
    ensures Runs.Follows(from, s', Beside(t)) && t in s'.readers && s'.readers[t].freed
  {
    s' := Go(from, s, t, Consume);
    s' := Go(from, s', t, Consume);
    assert ReaderOk(s'.queue.head, s'.queue.taken, s'.queue.consumer, s'.readers[t]);
  }

  lemma EnterConsumer(from: Shared, s: Shared, t: Tid) returns (s': Shared)
    requires SharedInv(s) && Runs.Follows(from, s, Beside(t)) && t in s.readers && s.queue.consumer.Free?
    ensures SharedInv(s') && Runs.Follows(from, s', Beside(t)) && t in s'.readers && s'.readers[t].at == s.readers[t].at
    ensures exists u :: s'.queue == s.queue.(consumer := AtHead(false), holder := u)
  {
    var u := Unused(s.queue.asleep.Keys + s.queue.woken);
    s' := Go(from, s, t, Lock(u, false));
  }

  lemma StepConsumer(from: Shared, s: Shared, t: Tid) returns (s': Shared)
    requires SharedInv(s) && Runs.Follows(from, s, Beside(t)) && t in s.readers && FrontDue(s.queue)
    requires !s.queue.consumer.Free? && !s.queue.consumer.Take?
    ensures SharedInv(s') && Runs.Follows(from, s', Beside(t)) && t in s'.readers && s'.readers[t].at == s.readers[t].at
    ensures FrontDue(s'.queue) && s'.queue.taken == s.queue.taken
    ensures Rank(s'.queue.consumer) < Rank(s.queue.consumer)
  {
    s' := Go(from, s, t, Consume);
    if Owes(s.queue.consumer) { RankFallsAtWrite(s.queue); } else { RankFallsAtLoad(s.queue); }
  }

  lemma {:induction false} UntilDeleted(from: Shared, s: Shared, t: Tid) returns (s': Shared)
    requires SharedInv(s) && Runs.Follows(from, s, Beside(t)) && t in s.readers
    requires FrontDue(s.queue) && s.readers[t].at == s.queue.taken
    ensures Runs.Follows(from, s', Beside(t)) && t in s'.readers && s'.readers[t].freed
    decreases Rank(s.queue.consumer)
  {
    if s.queue.consumer.Take? {
      s' := TakeAndDelete(from, s, t);
    } else {
      if s.queue.consumer.Free? { s' := EnterConsumer(from, s, t); } else { s' := StepConsumer(from, s, t); }
      s' := UntilDeleted(from, s', t);
    }
  }
}
