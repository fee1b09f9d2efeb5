/** The queue as an object: the fields the threads share, and one method per atomic access. */
module AtomicQueueObject {
  import opened Options
  import Runs
  import opened AtomicQueues
  import opened AtomicQueueTheorems

  class AtomicQueue {
    var m_head: Addr
    var m_tail: Option<Addr>
    var heap: map<Addr, Node>
    // program counters of the threads inside the queue
    var producers: map<Tid, Producer>
    var consumer: Consumer
    var holder: Tid
    var asleep: map<Tid, Option<Addr>>
    var woken: set<Tid>
    // history
    var chain: seq<Addr>
    var pub: seq<Entry>
    var taken: nat
    var out: seq<Value>

    ghost function View(): State
      reads this
    {
      State(heap, m_head, m_tail, producers, consumer, holder, asleep, woken, chain, pub, taken, out, false)
    }

    ghost predicate Valid()
      reads this
    {
      Reachable(View())
    }

    constructor (stub: Addr)
      ensures Valid() && View() == Start(stub)
      ensures m_head == stub && m_tail == Some(stub) && heap == map[stub := Node(None, Raw)] && pub == [] && out == []
    {
      m_head, m_tail := stub, Some(stub);
      heap := map[stub := Node(None, Raw)];
      producers, consumer, holder, asleep, woken := map[], Free, 0, map[], {};
      chain, pub, taken, out := [stub], [], 0, [];
      new;
      assert View() == Start(stub);
      Runs.InitialIsReachable(View(), Init, Next);
    }

    // ---------- enqueue ----------

    method AllocateNode(t: Tid, a: Addr, v: Value)
      requires Valid() && t !in producers && a !in heap
      modifies this
      ensures Valid() && View() == Apply(old(View()), Allocate(t, a, v))
      ensures var s := old(View()); View() == s.(heap := s.heap[a := Node(None, Live(v))], producers := s.producers[t := Allocated(a)])
    {
      StepReachable(View(), Allocate(t, a, v));
      heap := heap[a := Node(None, Live(v))];
      producers := producers[t := Allocated(a)];
    }

    method LoadTailOf(t: Tid)
      requires Valid() && Enabled(View(), LoadTail(t))
      modifies this
      ensures Valid() && View() == Apply(old(View()), LoadTail(t))
      ensures var s := old(View()); View() == s.(producers := s.producers[t := Loaded(s.producers[t].node, s.tail)])
    {
      StepReachable(View(), LoadTail(t));
      producers := producers[t := Loaded(producers[t].node, m_tail)];
    }

    /** `compare_exchange_weak` on the tail: it may fail although the tail is the expected one. */
    method CompareExchangeTail(t: Tid, spurious: bool) returns (ok: bool)
      requires Valid() && t in producers && producers[t].Loaded? && producers[t].seen.Some?
      modifies this
      ensures Valid() && ok == (old(m_tail == producers[t].seen) && !spurious)
      ensures View() == Apply(old(View()), if ok then CasOk(t) else CasFail(t))
      ensures !ok ==> var s := old(View()); View() == s.(producers := s.producers[t := Loaded(s.producers[t].node, s.tail)])
      ensures ok ==> var s := old(View()); var n := s.producers[t].node;
        && s.tail.Some? && n in s.heap && s.heap[n].slot.Live?
        && View() == s.(tail := Some(n), chain := s.chain + [n], pub := s.pub + [Entry(t, s.heap[n].slot.value)],
             producers := s.producers[t := Published(n, s.tail.value, |s.pub|)])
    {
      ok := m_tail == producers[t].seen && !spurious;
      StepReachable(View(), if ok then CasOk(t) else CasFail(t));
      var n := producers[t].node;
      if ok {
        pub := pub + [Entry(t, heap[n].slot.value)];
        chain := chain + [n];
        producers := producers[t := Published(n, m_tail.value, |pub| - 1)];
        m_tail := Some(n);
      } else {
        producers := producers[t := Loaded(n, m_tail)];
      }
    }

    /** The tail is null: `enqueue` destroys its value, frees its node and returns false. */
    method Discard(t: Tid)
      requires Valid() && Enabled(View(), GiveUp(t))
      modifies this
      ensures Valid() && View() == Apply(old(View()), GiveUp(t))
      ensures var s := old(View()); View() == s.(heap := s.heap - {s.producers[t].node}, producers := s.producers - {t})
    {
      StepReachable(View(), GiveUp(t));
      heap := heap - {producers[t].node};
      producers := producers - {t};
    }

    /** `pred->next = node`, by the address the producer replaced in its CAS. */
    method StoreNext(t: Tid)
      requires Valid() && Enabled(View(), Link(t))
      modifies this
      ensures Valid() && View() == Apply(old(View()), Link(t))
      ensures var s := old(View()); var p := s.producers[t];
        && p.pred in s.heap
        && View() == s.(heap := s.heap[p.pred := s.heap[p.pred].(next := Some(p.node))], producers := s.producers - {t})
    {
      StepReachable(View(), Link(t));
      var p := producers[t];
      heap := heap[p.pred := heap[p.pred].(next := Some(p.node))];
      producers := producers - {t};
    }

    // ---------- dequeue ----------

    method LockConsumer(t: Tid, waits: bool)
      requires Valid() && Enabled(View(), Lock(t, waits))
      modifies this
      ensures Valid() && View() == Apply(old(View()), Lock(t, waits))
      ensures var s := old(View()); View() == s.(consumer := AtHead(waits), holder := t)
    {
      StepReachable(View(), Lock(t, waits));
      consumer, holder := AtHead(waits), t;
    }

    /** The next load or loop test of the consumer. */
    method Load()
      requires Valid() && !consumer.Free? && !consumer.Take? && !Owes(consumer)
      modifies this
      ensures Valid() && View() == Apply(old(View()), Consume)
      ensures var s := old(View()); View() == s.(consumer := consumer, asleep := asleep)
      ensures old(consumer).AtHead? ==> consumer == if old(consumer).waits then AtTail(m_head) else TryNext(m_head)
      ensures old(consumer).TryNext? || old(consumer).AtNext? || old(consumer).ReNext? ==> old(consumer).h in heap
      ensures old(consumer).TryNext? ==>
        var nx := heap[old(consumer).h].next;
        consumer == if nx.None? then Free else Take(old(consumer).h, nx.value)
      ensures old(consumer).AtTail? ==> consumer == AtNext(old(consumer).h, m_tail)
      ensures old(consumer).AtNext? ==> consumer == AtLoop(old(consumer).h, old(consumer).tl, heap[old(consumer).h].next)
      ensures old(consumer).ReHead? ==> consumer == ReNext(m_head)
      ensures old(consumer).ReNext? ==> consumer == ReTail(old(consumer).h, heap[old(consumer).h].next)
      ensures old(consumer).ReTail? ==> consumer == AtLoop(old(consumer).h, m_tail, old(consumer).nx)
      ensures old(consumer).AtLoop? ==>
        consumer == if old(consumer).nx.Some? then Take(old(consumer).h, old(consumer).nx.value)
                    else if old(consumer).tl.None? || old(consumer).tl.value == old(consumer).h then Free
                    else ReTail(old(consumer).h, None)
      ensures asleep == if old(consumer).AtLoop? && old(consumer).nx.None? && old(consumer).tl == Some(old(consumer).h)
                then old(asleep)[holder := old(consumer).tl] else old(asleep)
    {
      StepReachable(View(), Consume);
      match consumer
      case AtHead(waits) => consumer := if waits then AtTail(m_head) else TryNext(m_head);
      case TryNext(h) => consumer := if heap[h].next.None? then Free else Take(h, heap[h].next.value);
      case AtTail(h) => consumer := AtNext(h, m_tail);
      case AtNext(h, tl) => consumer := AtLoop(h, tl, heap[h].next);
      case AtLoop(h, tl, nx) =>
        if nx.Some? {
          consumer := Take(h, nx.value);
        } else if tl.None? {
          consumer := Free;
        } else if tl.value == h {
          consumer, asleep := Free, asleep[holder := tl];
        } else {
          consumer := ReTail(h, nx);
        }
      case ReHead => consumer := ReNext(m_head);
      case ReNext(h) => consumer := ReTail(h, heap[h].next);
      case ReTail(h, nx) => consumer := AtLoop(h, m_tail, nx);
    }

    method StoreHead()
      requires Valid() && consumer.Take?
      modifies this
      ensures Valid() && View() == Apply(old(View()), Consume)
      ensures var s := old(View()); View() == s.(head := s.consumer.n, consumer := Drop(s.consumer.h, s.consumer.n), taken := s.taken + 1,
        chain := if s.chain == [] then [] else s.chain[1..])
    {
      StepReachable(View(), Consume);
      m_head, consumer := consumer.n, Drop(consumer.h, consumer.n);
      chain, taken := if chain == [] then [] else chain[1..], taken + 1;
    }

    method DeleteOldHead()
      requires Valid() && consumer.Drop?
      modifies this
      ensures Valid() && View() == Apply(old(View()), Consume)
      ensures var s := old(View()); View() == s.(heap := s.heap - {s.consumer.h}, consumer := Move(s.consumer.n))
    {
      StepReachable(View(), Consume);
      heap, consumer := heap - {consumer.h}, Move(consumer.n);
    }

    method MoveOut() returns (v: Value)
      requires Valid() && consumer.Move?
      modifies this
      ensures Valid() && View() == Apply(old(View()), Consume)
      ensures out == old(out) + [v]
      ensures var s := old(View()); var n := s.consumer.n;
        && n in s.heap && s.heap[n].slot == Live(v)
        && View() == s.(heap := s.heap[n := s.heap[n].(slot := Raw)], out := s.out + [v], consumer := Free)
    {
      StepReachable(View(), Consume);
      var n := consumer.n;
      v := heap[n].slot.value;
      heap := heap[n := heap[n].(slot := Raw)];
      out, consumer := out + [v], Free;
    }

    /** `wait` returns once the tail differs from the expected address; then the lock is taken again. */
    method WakeUp(t: Tid)
      requires Valid() && Enabled(View(), Wake(t))
      modifies this
      ensures Valid() && View() == Apply(old(View()), Wake(t))
      ensures var s := old(View()); View() == s.(asleep := s.asleep - {t}, woken := s.woken + {t})
    {
      StepReachable(View(), Wake(t));
      asleep, woken := asleep - {t}, woken + {t};
    }

    method RelockConsumer(t: Tid)
      requires Valid() && Enabled(View(), Relock(t))
      modifies this
      ensures Valid() && View() == Apply(old(View()), Relock(t))
      ensures var s := old(View()); View() == s.(consumer := ReHead, holder := t, woken := s.woken - {t})
    {
      StepReachable(View(), Relock(t));
      consumer, holder, woken := ReHead, t, woken - {t};
    }

    method WaitExpires(t: Tid)
      requires Valid() && Enabled(View(), Expire(t))
      modifies this
      ensures Valid() && View() == Apply(old(View()), Expire(t))
      ensures var s := old(View()); View() == s.(asleep := s.asleep - {t})
    {
      StepReachable(View(), Expire(t));
      asleep := asleep - {t};
    }

    method StopQueue()
      requires Valid()
      modifies this
      ensures Valid() && View() == Apply(old(View()), Stop)
      ensures var s := old(View()); View() == s.(tail := None)
    {
      StepReachable(View(), Stop);
      m_tail := None;
    }

    // ---------- a consumer that runs alone ----------

    /** The accesses of `try_dequeue`, in order, on a state where none of them goes wrong. */
    method TakeAlone(t: Tid) returns (r: Option<Value>)
      requires Takable(View())
      modifies this
      ensures View() == Alone(old(View()), t) && r == Oldest(old(View()))
    {
      holder := t;
      var head := m_head;
      var next := heap[head].next;
      if next == None {
        return None;
      }
      m_head := next.value;
      chain, taken := chain[1..], taken + 1;
      heap := heap - {head};
      r := Some(heap[m_head].slot.value);
      out := out + [r.value];
      heap := heap[m_head := heap[m_head].(slot := Raw)];
    }

    /** `try_dequeue` from load to destruction while no other thread moves: it returns the oldest
        published value exactly when its link is stored. */
    method TryDequeue(t: Tid) returns (r: Option<Value>)
      requires Valid() && Enabled(View(), Lock(t, false))
      modifies this
      ensures Valid() && old(Takable(View())) && View() == Alone(old(View()), t)
      ensures r.Some? <==> old(Linked(View()))
      ensures r.Some? ==> old(taken) < |pub| && r.value == pub[old(taken)].value
      ensures r.Some? ==> taken == old(taken) + 1 && out == old(out) + [r.value]
      ensures r.None? ==> taken == old(taken) && out == old(out) && heap == old(heap) && m_head == old(m_head)
      ensures pub == old(pub) && producers == old(producers) && m_tail == old(m_tail) && consumer == Free
    {
      AloneFacts(View(), t);
      r := TakeAlone(t);
    }

    /** One turn of the destructor's loop. */
    method DrainNext(t: Tid) returns (r: Option<Value>)
      requires Valid() && Enabled(View(), Lock(t, false))
      modifies this
      ensures Valid() && Enabled(View(), Lock(t, false)) && pub == old(pub) && producers == old(producers)
      ensures out == old(out) + (if r.Some? then [r.value] else []) && taken == old(taken) + (if r.Some? then 1 else 0) <= |pub|
      ensures r.None? ==> !Linked(View())
    {
      AloneFacts(View(), t);
      r := TryDequeue(t);
    }

    /** The destructor. No thread may be inside the queue. Every published value is handed to its
        destruction once, in order, and no node stays allocated. */
    method Destroy(t: Tid) returns (drained: seq<Value>)
      requires Valid() && producers == map[] && Enabled(View(), Lock(t, false))
      modifies this
      ensures heap == map[]
      ensures out == old(out) + drained == Values(pub) && pub == old(pub)
    {
      StopQueue();
      drained := [];
      var r := DrainNext(t);
      while r.Some?
        invariant Valid() && producers == map[] && Enabled(View(), Lock(t, false)) && pub == old(pub)
        invariant taken <= |pub|
        invariant r.None? ==> !Linked(View())
        invariant out == old(out) + drained + (if r.Some? then [r.value] else [])
        decreases |pub| - taken, r.Some?
      {
        drained := drained + [r.value];
        r := DrainNext(t);
      }
      AloneIsLinked(View());
      var stub := m_head;
      m_head := 0;
      heap := heap - {stub};
    }
  }

  /** The link behind the head is stored. */
  predicate Linked(s: State) {
    s.head in s.heap && s.heap[s.head].next.Some?
  }

  /** The head is live, and so is the value behind it, if it is linked. */
  ghost predicate Takable(s: State) {
    && s.consumer.Free? && s.head in s.heap && !s.fault
    && (s.heap[s.head].next.Some? ==>
          && s.heap[s.head].next.value != s.head && s.heap[s.head].next.value in s.heap
          && s.heap[s.heap[s.head].next.value].slot.Live? && s.chain != [])
  }

  /** The oldest remaining value, if its link is stored. */
  ghost function Oldest(s: State): Option<Value>
    requires Takable(s)
  {
    if s.heap[s.head].next.None? then None else Some(s.heap[s.heap[s.head].next.value].slot.value)
  }

  /** The state after one thread has run `try_dequeue` to its end without interference. */
  ghost function Alone(s: State, t: Tid): State
    requires Takable(s)
  {
    if s.heap[s.head].next.None? then s.(holder := t) else Taken(s, t, s.heap[s.head].next.value)
  }

  ghost function Taken(s: State, t: Tid, n: Addr): State
    requires n in s.heap && n != s.head && s.heap[n].slot.Live? && s.chain != []
  {
    State(
      (s.heap - {s.head})[n := s.heap[n].(slot := Raw)], n, s.tail, s.producers, Free, t, s.asleep, s.woken,
      s.chain[1..], s.pub, s.taken + 1, s.out + [s.heap[n].slot.value], s.fault)
  }

  lemma IsTakable(s: State)
    requires Reachable(s) && s.consumer.Free?
    ensures Takable(s) && s.taken <= |s.pub| && |s.out| == s.taken
    ensures Linked(s) ==> s.taken < |s.pub| && Oldest(s) == Some(s.pub[s.taken].value)
  {
    ReachableInv(s);
    if Linked(s) {
      FirstIsLinked(s);
    }
  }

  lemma FirstIsLinked(s: State)
    requires Inv(s) && Linked(s)
    ensures |s.chain| > 1 && s.heap[s.head].next == Some(s.chain[1]) && s.chain[1] != s.head && s.taken < |s.pub|
    ensures s.chain[1] in s.heap && s.heap[s.chain[1]].slot == Live(s.pub[s.taken].value)
  {
    if |s.chain| > 1 {
      assert Joined(s.heap, s.chain, s.pub, s.taken, s.producers, 0);
      assert SlotOk(s.heap, s.chain[1], s.pub, s.taken + 1);
    }
  }

  /** The lock and the two loads of `try_dequeue`. */
  lemma LoadsAreSteps(s: State, t: Tid)
    requires Reachable(s) && Enabled(s, Lock(t, false)) && Takable(s)
    ensures Reachable(s.(holder := t, consumer := if Linked(s) then Take(s.head, s.heap[s.head].next.value) else Free))
  {
    var s1 := Apply(s, Lock(t, false));
    StepReachable(s, Lock(t, false));
    StepReachable(s1, Consume);
    StepReachable(Apply(s1, Consume), Consume);
  }

  /** The store of the head, the deletion of the old one and the move of the value. */
  lemma TakenIsSteps(s: State)
    requires Reachable(s) && s.consumer.Take? && s.consumer.h == s.head
    requires s.consumer.n in s.heap && s.consumer.n != s.head && s.heap[s.consumer.n].slot.Live? && s.chain != []
    ensures Reachable(Taken(s, s.holder, s.consumer.n))
  {
    StepReachable(s, Consume);
    var s1 := ApplyConsume(s);
    StepReachable(s1, Consume);
    StepReachable(ApplyConsume(s1), Consume);
    TakenIsThree(s);
  }

  lemma TakenIsThree(s: State)
    requires s.consumer.Take? && s.consumer.h == s.head && s.chain != [] && !s.fault
    requires s.consumer.n in s.heap && s.consumer.n != s.head && s.heap[s.consumer.n].slot.Live?
    requires !ApplyConsume(ApplyConsume(s)).consumer.Free? && !ApplyConsume(ApplyConsume(s)).fault
    ensures ApplyConsume(ApplyConsume(ApplyConsume(s))) == Taken(s, s.holder, s.consumer.n)
  {
  }

  /** What one thread does alone is what its accesses do one after the other. */
  lemma AloneFacts(s: State, t: Tid)
    requires Reachable(s) && Enabled(s, Lock(t, false))
    ensures Takable(s) && Reachable(Alone(s, t)) && s.taken <= |s.pub| && Oldest(s).Some? == Linked(s)
    ensures Linked(s) ==> s.taken < |s.pub| && Oldest(s) == Some(s.pub[s.taken].value)
  {
    IsTakable(s);
    LoadsAreSteps(s, t);
    if Linked(s) {
      TakenIsSteps(s.(holder := t, consumer := Take(s.head, s.heap[s.head].next.value)));
    }
  }

  /** With no producer inside, an empty-looking queue is empty and the stub is its only node. */
  lemma AloneIsLinked(s: State)
    requires Reachable(s) && s.producers == map[] && s.consumer.Free? && !Linked(s)
    ensures s.taken == |s.pub| && s.heap.Keys == {s.head} && s.out == Values(s.pub)
  {
    ReachableInv(s);
    GapHasPublisher(s);
    forall a | a in s.heap ensures a == s.head {
      var o :| Owns(s.chain, s.producers, s.consumer, a, o);
    }
  }

  /** Only a producer that still has its link to store can hide the oldest remaining value. */
  lemma GapHasPublisher(s: State)
    requires Inv(s)
    ensures !Linked(s) && s.taken < |s.pub| ==> s.pub[s.taken].tid in s.producers
  {
    if |s.chain| > 1 { assert Joined(s.heap, s.chain, s.pub, s.taken, s.producers, 0); }
  }
}
