/** The asynchronous queue of a SubscriptionService: senders append, and one thread delivers from the
    front with the queue unlocked. */
module AsyncEvents {
  import opened Basics

  /** The queue, the event being delivered, and the history: all events sent, and all whose delivery
      has ended, by returning or by throwing. */
  datatype AsyncState<E> = AsyncState(queue: seq<E>, delivering: Option<E>, sent: seq<E>, delivered: seq<E>)

  datatype AsyncStep<E> = Send(event: E) | Take | EndDelivery

  function NewQueue<E>(): AsyncState<E> {
    AsyncState([], None, [], [])
  }

  function AsyncNext<E>(a: AsyncState<E>, step: AsyncStep<E>): Option<AsyncState<E>> {
    match step
    case Send(event) => Some(a.(queue := a.queue + [event], sent := a.sent + [event]))
    case Take =>
      if a.delivering.None? && a.queue != [] then Some(a.(delivering := Some(a.queue[0]), queue := a.queue[1..])) else None
    case EndDelivery =>
      if a.delivering.Some? then Some(a.(delivering := None, delivered := a.delivered + [a.delivering.value])) else None
  }

  predicate AsyncRun<E>(a: AsyncState<E>, steps: seq<AsyncStep<E>>)
    decreases |steps|
  {
    steps == [] || (AsyncNext(a, steps[0]).Some? && AsyncRun(AsyncNext(a, steps[0]).value, steps[1..]))
  }

  function AfterAsyncRun<E>(a: AsyncState<E>, steps: seq<AsyncStep<E>>): AsyncState<E>
    requires AsyncRun(a, steps)
    decreases |steps|
  {
    if steps == [] then a else AfterAsyncRun(AsyncNext(a, steps[0]).value, steps[1..])
  }

  function Current<E>(a: AsyncState<E>): seq<E> {
    if a.delivering.Some? then [a.delivering.value] else []
  }

  predicate FirstInFirstOut<E(==)>(a: AsyncState<E>) {
    a.delivered + Current(a) + a.queue == a.sent
  }

  lemma AsyncStepKeepsOrder<E>(a: AsyncState<E>, step: AsyncStep<E>)
    requires FirstInFirstOut(a) && AsyncNext(a, step).Some?
    ensures FirstInFirstOut(AsyncNext(a, step).value)
  {
    if step.Send? {
      assert a.delivered + Current(a) + (a.queue + [step.event]) == (a.delivered + Current(a) + a.queue) + [step.event];
    }
  }

  lemma {:induction false} AsyncRunKeepsOrder<E>(a: AsyncState<E>, steps: seq<AsyncStep<E>>)
    requires FirstInFirstOut(a) && AsyncRun(a, steps)
    ensures FirstInFirstOut(AfterAsyncRun(a, steps))
    decreases |steps|
  {
    hide FirstInFirstOut, AsyncNext;
    if steps != [] {
      AsyncStepKeepsOrder(a, steps[0]);
      AsyncRunKeepsOrder(AsyncNext(a, steps[0]).value, steps[1..]);
    }
  }

  /** However sends and deliveries interleave: the events delivered, the one being delivered and those
      still queued are the events sent, in the order in which they were sent. */
  lemma EventsAreDeliveredInOrder<E>(steps: seq<AsyncStep<E>>)
    requires AsyncRun(NewQueue<E>(), steps)
    ensures var a := AfterAsyncRun(NewQueue<E>(), steps);
            a.delivered + Current(a) + a.queue == a.sent
  {
    AsyncRunKeepsOrder(NewQueue<E>(), steps);
  }

  // ----- The object -----

  /** What is sent while the first `n` events are being delivered. */
  function Arrivals<E>(window: nat -> seq<E>, n: nat): seq<E> {
    if n == 0 then [] else Arrivals(window, n - 1) + window(n - 1)
  }

  lemma OneMoreDelivered<E>(all: seq<E>, more: seq<E>, n: nat)
    requires n < |all|
    ensures (all + more)[..n + 1] == all[..n] + [all[n]]
    ensures (all + more)[n + 1..] == all[n..][1..] + more
  {
  }

  class AsyncEventQueue<E> {
    var asyncEventQueue: seq<E>
    var current: Option<E>
    ghost var sent: seq<E>
    ghost var delivered: seq<E>

    ghost function State(): AsyncState<E>
      reads this
    {
      AsyncState(asyncEventQueue, current, sent, delivered)
    }

    constructor ()
      ensures State() == NewQueue()
    {
      asyncEventQueue, current, sent, delivered := [], None, [], [];
    }

    method SendEventAsynchronous(event: E)
      modifies this
      ensures Some(State()) == AsyncNext(old(State()), Send(event))
    {
      asyncEventQueue := asyncEventQueue + [event];
      sent := sent + [event];
    }

    method SendAll(events: seq<E>)
      modifies this
      ensures asyncEventQueue == old(asyncEventQueue) + events && sent == old(sent) + events
      ensures current == old(current) && delivered == old(delivered)
    {
      for i := 0 to |events|
        invariant asyncEventQueue == old(asyncEventQueue) + events[..i] && sent == old(sent) + events[..i]
        invariant current == old(current) && delivered == old(delivered)
      {
        SendEventAsynchronous(events[i]);
        assert events[..i + 1] == events[..i] + [events[i]];
      }
      assert events[..|events|] == events;
    }

    /** The inner loop of `asyncEventsLoop`, cancelled after `limit` deliveries at the latest, with
        what others send during the `k`th delivery given by `window(k)`. It ends when it is cancelled
        or nothing is left, and delivers from the front of everything sent, in order; a handler that
        throws makes no difference. */
    method AsyncEventsLoop(limit: nat, window: nat -> seq<E>) returns (n: nat)
      requires current.None?
      modifies this
      ensures current.None? && (n == limit || (n < limit && asyncEventQueue == []))
      ensures sent == old(sent) + Arrivals(window, n)
      ensures n <= |old(asyncEventQueue) + Arrivals(window, n)|
      ensures delivered == old(delivered) + (old(asyncEventQueue) + Arrivals(window, n))[..n]
      ensures asyncEventQueue == (old(asyncEventQueue) + Arrivals(window, n))[n..]
    {
      n := 0;
      ghost var before := asyncEventQueue;
      assert before + Arrivals(window, 0) == before;
      while n < limit && asyncEventQueue != []
        invariant current.None? && n <= limit && sent == old(sent) + Arrivals(window, n)
        invariant n <= |before + Arrivals(window, n)|
        invariant delivered == old(delivered) + (before + Arrivals(window, n))[..n]
        invariant asyncEventQueue == (before + Arrivals(window, n))[n..]
        decreases limit - n
      {
        ghost var all := before + Arrivals(window, n);
        current := Some(asyncEventQueue[0]);
        asyncEventQueue := asyncEventQueue[1..];
        SendAll(window(n));
        delivered := delivered + [current.value];
        current := None;
        assert before + Arrivals(window, n + 1) == all + window(n);
        OneMoreDelivered(all, window(n), n);
        n := n + 1;
      }
    }
  }
}
