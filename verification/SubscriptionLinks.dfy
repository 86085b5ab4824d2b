/** Links between subscribers and services in both directions, over subscription and destruction of
    either side. The world is generic in what identifies a service and a subscriber, so that it can
    be read off the heap. */
module SubscriptionLinks {
  import opened Basics
  import opened SubscriptionTables

  /** The live services with their tables, the live subscribers with their `m_subscriptions`. */
  datatype World<V(==), U(==)> = World(services: map<V, Tables<U>>, subscribers: map<U, set<V>>)

  datatype Move<V, U> =
    | NewService(service: V)
    | NewSubscriber(subscriber: U)
    | SubscribeTo(subscriber: U, op: Op, service: V)
    | EndSubscriber(subscriber: U)
    | EndService(service: V)

  /** Everyone in either table. */
  function Mentioned<U>(t: Tables<U>): set<U> {
    t.all + set name, u | name in t.named && u in t.named[name] :: u
  }

  /** Moves address live objects, objects are created once, and `subscribeTo` comes in two forms. */
  predicate Possible<V, U>(w: World<V, U>, move: Move<V, U>) {
    match move
    case NewService(v) => v !in w.services
    case NewSubscriber(u) => u !in w.subscribers
    case SubscribeTo(u, op, v) => u in w.subscribers && v in w.services && (op.SubscribeAll? || op.SubscribeNamed?)
    case EndSubscriber(u) => u in w.subscribers
    case EndService(v) => v in w.services
  }

  function AfterMove<V, U>(w: World<V, U>, move: Move<V, U>): World<V, U>
    requires Possible(w, move)
  {
    match move
    case NewService(v) => w.(services := w.services[v := Empty()])
    case NewSubscriber(u) => w.(subscribers := w.subscribers[u := {}])
    case SubscribeTo(u, op, v) =>
      World(w.services[v := Apply(w.services[v], op, u)],
            if Reports(w.services[v], op, u) then w.subscribers[u := w.subscribers[u] + {v}] else w.subscribers)
    case EndSubscriber(u) =>
      World(map v | v in w.services :: if v in w.subscribers[u] then Apply(w.services[v], Unsubscribe, u) else w.services[v],
            w.subscribers - {u})
    case EndService(v) =>
      World(w.services - {v},
            map u | u in w.subscribers :: if u in Mentioned(w.services[v]) then w.subscribers[u] - {v} else w.subscribers[u])
  }

  /** Every table is in order, nobody points at a destroyed object, and the two directions of each
      link agree. */
  ghost predicate Linked<V, U>(w: World<V, U>) {
    && (forall v :: v in w.services ==> SubscriptionTables.Inv(w.services[v]))
    && (forall u :: u in w.subscribers ==> w.subscribers[u] <= w.services.Keys)
    && (forall v :: v in w.services ==> Mentioned(w.services[v]) <= w.subscribers.Keys)
    && (forall u, v :: u in w.subscribers && v in w.services ==> (v in w.subscribers[u] <==> u in Mentioned(w.services[v])))
  }

  lemma MentionedIsInterested<U>(t: Tables<U>, u: U)
    ensures u in Mentioned(t) <==> InterestOf(t, u) != Nothing
  {
    if u in Mentioned(t) && u !in t.all {
      var name :| name in t.named && u in t.named[name];
      assert name in NamesOf(t.named, u);
    }
  }

  lemma SameBut<U>(a: set<U>, b: set<U>, u: U)
    requires forall r :: r != u ==> (r in a <==> r in b)
    ensures a - {u} == b - {u}
  {
  }

  /** An operation of one subscriber changes who is mentioned in one place at most. */
  lemma OperationOnMentioned<U>(t: Tables<U>, op: Op, u: U)
    requires SubscriptionTables.Inv(t)
    ensures SubscriptionTables.Inv(Apply(t, op, u))
    ensures Mentioned(Apply(t, op, u)) - {u} == Mentioned(t) - {u}
    ensures u in Mentioned(Apply(t, op, u)) <==> ApplyInterest(InterestOf(t, u), op) != Nothing
    ensures Reports(t, op, u) <==> ApplyInterest(InterestOf(t, u), op) != InterestOf(t, u)
  {
    hide Mentioned, InterestOf, Apply, ApplyInterest, SubscriptionTables.Inv, Reports;
    OperationRefinesMap(t, op, u);
    var t' := Apply(t, op, u);
    MentionedIsInterested(t', u);
    forall r | r != u ensures r in Mentioned(t') <==> r in Mentioned(t) {
      MentionedIsInterested(t, r);
      MentionedIsInterested(t', r);
      assert InterestOf(t', r) == InterestOf(t, r);
    }
    SameBut(Mentioned(t'), Mentioned(t), u);
  }

  /** `subscribeTo` records a back link exactly when one is due: if the service reports no change,
      the subscriber was mentioned before or is not mentioned now. */
  lemma SubscribingMentions<U>(t: Tables<U>, op: Op, u: U)
    requires SubscriptionTables.Inv(t) && (op.SubscribeAll? || op.SubscribeNamed?)
    ensures Reports(t, op, u) ==> u in Mentioned(Apply(t, op, u))
    ensures !Reports(t, op, u) ==> (u in Mentioned(Apply(t, op, u)) <==> u in Mentioned(t))
  {
    OperationOnMentioned(t, op, u);
    MentionedIsInterested(t, u);
  }

  lemma MoveKeepsLinks<V, U>(w: World<V, U>, move: Move<V, U>)
    requires Linked(w) && Possible(w, move)
    ensures Linked(AfterMove(w, move))
  {
    hide SubscriptionTables.Inv, Apply, Reports;
    match move
    case NewService(v) => EmptyMentionsNobody<U>();
    case NewSubscriber(u) =>
    case SubscribeTo(u, op, v) => SubscribingKeepsLinks(w, u, op, v);
    case EndSubscriber(u) => EndSubscriberKeepsLinks(w, u);
    case EndService(v) =>
  }

  lemma EmptyMentionsNobody<U>()
    ensures Mentioned(Empty<U>()) == {} && SubscriptionTables.Inv(Empty<U>())
  {
  }

  lemma SubscribingKeepsLinks<V, U>(w: World<V, U>, u: U, op: Op, v: V)
    requires Linked(w) && Possible(w, SubscribeTo(u, op, v))
    ensures Linked(AfterMove(w, SubscribeTo(u, op, v)))
  {
    hide SubscriptionTables.Inv, Apply, Reports, Mentioned;
    var t, t' := w.services[v], Apply(w.services[v], op, u);
    OperationOnMentioned(t, op, u);
    SubscribingMentions(t, op, u);
    assert Mentioned(t') - {u} <= w.subscribers.Keys;
    var w' := AfterMove(w, SubscribeTo(u, op, v));
    assert w'.services[v] == t';
    forall r | r in w'.subscribers ensures v in w'.subscribers[r] <==> r in Mentioned(t') {
      if r != u {
        assert r in Mentioned(t') - {u} <==> r in Mentioned(t) - {u};
      }
    }
  }

  lemma EndSubscriberKeepsLinks<V, U>(w: World<V, U>, u: U)
    requires Linked(w) && u in w.subscribers
    ensures Linked(AfterMove(w, EndSubscriber(u)))
  {
    hide SubscriptionTables.Inv, Apply, Reports, Mentioned;
    forall v | v in w.services
      ensures var t := AfterMove(w, EndSubscriber(u)).services[v];
              && SubscriptionTables.Inv(t) && u !in Mentioned(t)
              && Mentioned(t) == Mentioned(w.services[v]) - {u}
    {
      OperationOnMentioned(w.services[v], Unsubscribe, u);
      if v !in w.subscribers[u] {
        assert AfterMove(w, EndSubscriber(u)).services[v] == w.services[v];
      }
    }
    var w' := AfterMove(w, EndSubscriber(u));
    forall v | v in w'.services ensures Mentioned(w'.services[v]) <= w'.subscribers.Keys {
      assert Mentioned(w'.services[v]) <= Mentioned(w.services[v]) - {u};
    }
    assert forall r :: r in w'.subscribers ==> w'.subscribers[r] == w.subscribers[r];
  }

  // ----- Runs -----

  predicate PossibleRun<V, U>(w: World<V, U>, moves: seq<Move<V, U>>)
    decreases |moves|
  {
    moves == [] || (Possible(w, moves[0]) && PossibleRun(AfterMove(w, moves[0]), moves[1..]))
  }

  function AfterRun<V, U>(w: World<V, U>, moves: seq<Move<V, U>>): World<V, U>
    requires PossibleRun(w, moves)
    decreases |moves|
  {
    if moves == [] then w else AfterRun(AfterMove(w, moves[0]), moves[1..])
  }

  /** Links agree over every run of subscriptions and destructions: a live subscriber records a
      service exactly when that live service's tables mention it, and neither side is left pointing
      at a destroyed object. */
  lemma {:induction false} RunKeepsLinks<V, U>(w: World<V, U>, moves: seq<Move<V, U>>)
    requires Linked(w) && PossibleRun(w, moves)
    ensures Linked(AfterRun(w, moves))
    decreases |moves|
  {
    hide Linked, AfterMove, Possible;
    if moves != [] {
      MoveKeepsLinks(w, moves[0]);
      RunKeepsLinks(AfterMove(w, moves[0]), moves[1..]);
    }
  }

  /** Does the interest cover all of these events? Nobody without a subscription covers anything,
      not even the empty list. */
  predicate Covers(interest: Interest, events: seq<string>) {
    interest.Everything? || (interest.Names? && SetOf(events) <= interest.names)
  }

  /** With links in order, `isSubscribedTo` may consult the subscriber's own record first. */
  lemma RecordDecidesSubscription<V, U>(w: World<V, U>, u: U, v: V, events: seq<string>)
    requires Linked(w) && u in w.subscribers && v in w.services
    ensures v in w.subscribers[u] <==> InterestOf(w.services[v], u) != Nothing
    ensures Covers(InterestOf(w.services[v], u), events) ==> v in w.subscribers[u]
  {
    MentionedIsInterested(w.services[v], u);
  }

  // ----- Copying a subscriber -----

  /** What `subscribe(subscribedEvents(other), u)` makes of a table. */
  function WithSameInterest<U>(t: Tables<U>, other: U, u: U): Tables<U> {
    Tables(if other in t.all then t.all + {u} else t.all,
           map name | name in t.named :: if other in t.named[name] then t.named[name] + {u} else t.named[name])
  }

  /** The copy constructor: subscribe wherever the original is, record nothing. */
  function AfterCopy<V, U>(w: World<V, U>, other: U, u: U): World<V, U>
    requires other in w.subscribers
  {
    World(map v | v in w.services ::
            if v in w.subscribers[other] then WithSameInterest(w.services[v], other, u) else w.services[v],
          w.subscribers[u := {}])
  }

  lemma CopyIsMentioned<U>(t: Tables<U>, other: U, u: U)
    requires other in Mentioned(t)
    ensures u in Mentioned(WithSameInterest(t, other, u))
  {
    var t' := WithSameInterest(t, other, u);
    if other !in t.all {
      var name :| name in t.named && other in t.named[name];
      assert name in t'.named && u in t'.named[name];
    }
  }

  /** Copying keeps the links only if there is nothing to copy: otherwise a service mentions the
      copy and the copy does not know it. */
  lemma CopyKeepsLinksIff<V, U>(w: World<V, U>, other: U, u: U)
    requires Linked(w) && other in w.subscribers && u !in w.subscribers
    ensures Linked(AfterCopy(w, other, u)) <==> w.subscribers[other] == {}
  {
    hide Mentioned, SubscriptionTables.Inv, WithSameInterest;
    var w' := AfterCopy(w, other, u);
    if w.subscribers[other] == {} {
      assert w'.services == w.services;
      MoveKeepsLinks(w, NewSubscriber(u));
    } else {
      var v :| v in w.subscribers[other];
      CopyIsMentioned(w.services[v], other, u);
      assert v in w'.services && v !in w'.subscribers[u] && u in Mentioned(w'.services[v]);
      assert w.subscribers[other] != {};
    }
  }
}
