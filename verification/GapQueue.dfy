/**
 A queue as its users see it. A producer first claims a place in the order (`Publish`)
 and only in a later step makes that place reachable (`Link`), so the reachable chain can
 stop short at a gap although later places are already linked. AtomicQueueTheorems proves
 that the pointer structure behaves like this; the awaitables and the semaphore are built on it.
 */
module GapQueues {
  datatype GapQueue<T> = GapQueue(items: seq<T>, missing: set<nat>, taken: nat) {
    ghost predicate Valid() {
      && taken <= |items|
      && forall k <- missing :: taken <= k < |items|
    }

    /** The oldest remaining item is linked to the head. */
    predicate CanTake() {
      taken < |items| && taken !in missing
    }

    function Publish(x: T): GapQueue<T> {
      GapQueue(items + [x], missing + {|items|}, taken)
    }

    function Link(k: nat): GapQueue<T> {
      this.(missing := missing - {k})
    }

    function Take(): GapQueue<T> {
      this.(taken := taken + 1)
    }
  }

  function Empty<T>(): GapQueue<T> {
    GapQueue([], {}, 0)
  }

  ghost predicate Publishes<T(!new)>(q: GapQueue<T>, q': GapQueue<T>) {
    exists x :: q' == q.Publish(x)
  }

  ghost predicate Links<T(!new)>(q: GapQueue<T>, q': GapQueue<T>) {
    exists k :: k in q.missing && q' == q.Link(k)
  }

  ghost predicate Takes<T(!new)>(q: GapQueue<T>, q': GapQueue<T>) {
    q.CanTake() && q' == q.Take()
  }

  /** One step of the queue, or a step of its environment that leaves it alone. */
  ghost predicate StepsTo<T(!new)>(q: GapQueue<T>, q': GapQueue<T>) {
    q' == q || Publishes(q, q') || Links(q, q') || Takes(q, q')
  }
}
