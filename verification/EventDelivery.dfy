/** Synchronous delivery of one event: who is called, in which order, and what the caller learns. */
module EventDelivery {
  import opened Basics
  import opened SubscriptionTables

  class Event {
    const eventName: string
    var preventDefaultFlag: bool
    var stopProcessingFlag: bool

    /** Stopping an event always prevents the default action too. */
    ghost predicate Valid()
      reads this
    {
      stopProcessingFlag ==> preventDefaultFlag
    }

    constructor (name: string)
      ensures Valid() && eventName == name && !preventDefaultFlag && !stopProcessingFlag
    {
      eventName, preventDefaultFlag, stopProcessingFlag := name, false, false;
    }

    constructor Copy(other: Event)
      requires other.Valid()
      ensures Valid() && eventName == other.eventName
      ensures preventDefaultFlag == other.preventDefaultFlag && stopProcessingFlag == other.stopProcessingFlag
    {
      eventName := other.eventName;
      preventDefaultFlag, stopProcessingFlag := other.preventDefaultFlag, other.stopProcessingFlag;
    }

    method StopProcessing()
      modifies this
      ensures Valid() && stopProcessingFlag && preventDefaultFlag
    {
      stopProcessingFlag := true;
      preventDefaultFlag := true;
    }

    method PreventDefault()
      requires Valid()
      modifies this`preventDefaultFlag
      ensures Valid() && preventDefaultFlag
    {
      preventDefaultFlag := true;
    }
  }

  /** What a handler does with the event it is given. It may do several of these things. */
  datatype Reaction = Reaction(prevents: bool, stops: bool, throws: bool)

  const PASS_ON := Reaction(false, false, false)

  /** The behaviour of the subscribers: a reaction may depend on the calls made before. */
  type Behaviour<!S> = (seq<S>, S) -> Reaction

  /** The members of a set in the order in which the set is traversed. */
  function InOrder<S(==)>(order: seq<S>, members: set<S>): seq<S> {
    if order == [] then []
    else (if order[0] in members then [order[0]] else []) + InOrder(order[1..], members)
  }

  function NamedLine<S>(t: Tables<S>, name: string, order: seq<S>): seq<S> {
    if name in t.named then InOrder(order, t.named[name]) else []
  }

  /** Everyone interested in the event: those who named it, then those who want everything. */
  function Line<S>(t: Tables<S>, name: string, order: seq<S>): seq<S> {
    NamedLine(t, name, order) + InOrder(order, t.all)
  }

  predicate Interested<S>(t: Tables<S>, name: string, s: S) {
    InterestOf(t, s).Everything? || (InterestOf(t, s).Names? && name in InterestOf(t, s).names)
  }

  predicate EndsDelivery(r: Reaction) {
    r.stops || r.throws
  }

  /** The calls that delivering to `line` adds to those made before. */
  function Calls<S>(line: seq<S>, behaviour: Behaviour<S>, before: seq<S>): seq<S>
    decreases |line|
  {
    if line == [] then before
    else if EndsDelivery(behaviour(before, line[0])) then before + [line[0]]
    else Calls(line[1..], behaviour, before + [line[0]])
  }

  /** The reaction that ended the delivery, or `PASS_ON` if it went through. */
  function Ending<S>(line: seq<S>, behaviour: Behaviour<S>, before: seq<S>): Reaction
    decreases |line|
  {
    if line == [] then PASS_ON
    else if EndsDelivery(behaviour(before, line[0])) then behaviour(before, line[0])
    else Ending(line[1..], behaviour, before + [line[0]])
  }

  /** Some handler that was called prevented the default action or stopped the event. */
  predicate Prevented<S>(line: seq<S>, behaviour: Behaviour<S>, before: seq<S>)
    decreases |line|
  {
    && line != []
    && var r := behaviour(before, line[0]);
       r.prevents || r.stops || (!r.throws && Prevented(line[1..], behaviour, before + [line[0]]))
  }

  function ReactionAt<S>(behaviour: Behaviour<S>, calls: seq<S>, i: nat): Reaction
    requires i < |calls|
  {
    behaviour(calls[..i], calls[i])
  }

  /** The calls are a prefix of the line, ending at the first handler that stops the event or
      throws; everyone is called if there is none. */
  ghost predicate StopsAtFirst<S>(line: seq<S>, behaviour: Behaviour<S>, calls: seq<S>) {
    && calls <= line
    && (forall i :: 0 <= i < |calls| - 1 ==> !ReactionAt(behaviour, calls, i).stops && !ReactionAt(behaviour, calls, i).throws)
    && (|calls| < |line| ==>
          && calls != []
          && (ReactionAt(behaviour, calls, |calls| - 1).stops || ReactionAt(behaviour, calls, |calls| - 1).throws))
  }

  lemma {:induction false} CallsExtend<S>(line: seq<S>, behaviour: Behaviour<S>, before: seq<S>)
    ensures before <= Calls(line, behaviour, before) <= before + line
    ensures !EndsDelivery(Ending(line, behaviour, before)) ==> Calls(line, behaviour, before) == before + line
    decreases |line|
  {
    if line != [] {
      CallsExtend(line[1..], behaviour, before + [line[0]]);
      assert before + line == before + [line[0]] + line[1..];
    }
  }

  /** Delivering to two groups in turn is delivering to the first, and to the second if the first
      did not end the delivery. */
  lemma {:induction false} DeliveryInTwoParts<S>(a: seq<S>, b: seq<S>, behaviour: Behaviour<S>, before: seq<S>)
    ensures EndsDelivery(Ending(a, behaviour, before)) ==>
              && Calls(a + b, behaviour, before) == Calls(a, behaviour, before)
              && Ending(a + b, behaviour, before) == Ending(a, behaviour, before)
              && (Prevented(a + b, behaviour, before) <==> Prevented(a, behaviour, before))
    ensures !EndsDelivery(Ending(a, behaviour, before)) ==>
              && Calls(a, behaviour, before) == before + a
              && Calls(a + b, behaviour, before) == Calls(b, behaviour, before + a)
              && Ending(a + b, behaviour, before) == Ending(b, behaviour, before + a)
              && (Prevented(a + b, behaviour, before) <==> Prevented(a, behaviour, before) || Prevented(b, behaviour, before + a))
    decreases |a|
  {
    if a == [] {
      assert a + b == b && before + a == before;
    } else {
      assert (a + b)[1..] == a[1..] + b;
      assert before + a == before + [a[0]] + a[1..];
      DeliveryInTwoParts(a[1..], b, behaviour, before + [a[0]]);
    }
  }

  lemma {:induction false} CallsStopAtFirst<S>(line: seq<S>, behaviour: Behaviour<S>, before: seq<S>)
    requires forall i :: 0 <= i < |before| ==> !EndsDelivery(ReactionAt(behaviour, before, i))
    ensures StopsAtFirst(before + line, behaviour, Calls(line, behaviour, before))
    decreases |line|
  {
    CallsExtend(line, behaviour, before);
    if line == [] {
      assert before + line == before;
    } else {
      var next := before + [line[0]];
      assert next[..|before|] == before;
      forall i | 0 <= i < |before| ensures ReactionAt(behaviour, next, i) == ReactionAt(behaviour, before, i) {
        assert next[..i] == before[..i];
      }
      if !EndsDelivery(behaviour(before, line[0])) {
        CallsStopAtFirst(line[1..], behaviour, next);
        assert before + line == next + line[1..];
      }
    }
  }

  /** What the recursion computes is what the interface promises, and nothing else would do. */
  lemma DeliveryIsPrefixToFirstStop<S>(line: seq<S>, behaviour: Behaviour<S>, calls: seq<S>)
    ensures StopsAtFirst(line, behaviour, calls) <==> calls == Calls(line, behaviour, [])
  {
    CallsStopAtFirst(line, behaviour, []);
    assert [] + line == line;
    var right := Calls(line, behaviour, []);
    if StopsAtFirst(line, behaviour, calls) {
      if |calls| < |right| {
        SamePrefixSameReaction(line, behaviour, calls, right);
      } else if |right| < |calls| {
        SamePrefixSameReaction(line, behaviour, right, calls);
      } else {
        assert calls == line[..|right|] == right;
      }
    }
  }

  lemma SamePrefixSameReaction<S>(line: seq<S>, behaviour: Behaviour<S>, a: seq<S>, b: seq<S>)
    requires a <= line && b <= line && |a| < |b|
    ensures a != [] ==> ReactionAt(behaviour, a, |a| - 1) == ReactionAt(behaviour, b, |a| - 1)
  {
    if a != [] {
      assert a[..|a| - 1] == b[..|a| - 1];
    }
  }

  lemma {:induction false} InOrderMembers<S>(order: seq<S>, members: set<S>, s: S)
    requires s in order
    ensures s in InOrder(order, members) <==> s in members
    decreases |order|
  {
    if s in order[1..] {
      InOrderMembers(order[1..], members, s);
    } else {
      InOrderOnlyMembers(order[1..], members, s);
    }
  }

  lemma {:induction false} InOrderOnlyMembers<S>(order: seq<S>, members: set<S>, s: S)
    ensures s in InOrder(order, members) ==> s in members && s in order
    decreases |order|
  {
    if order != [] {
      InOrderOnlyMembers(order[1..], members, s);
    }
  }

  lemma {:induction false} InOrderNoDuplicates<S>(order: seq<S>, members: set<S>)
    requires NoDuplicates(order)
    ensures NoDuplicates(InOrder(order, members))
    decreases |order|
  {
    if order != [] {
      InOrderNoDuplicates(order[1..], members);
      InOrderOnlyMembers(order[1..], members, order[0]);
    }
  }

  function NamedMembers<S>(t: Tables<S>, name: string): set<S> {
    if name in t.named then t.named[name] else {}
  }

  lemma InterestedMembers<S>(t: Tables<S>, name: string, s: S)
    requires SubscriptionTables.Inv(t)
    ensures Interested(t, name, s) <==> s in t.all || s in NamedMembers(t, name)
    ensures Interested(t, name, s) <==> s in t.all || (name in t.named && s in t.named[name])
    ensures !(s in t.all && s in NamedMembers(t, name))
  {
    assert name in NamesOf(t.named, s) <==> s in NamedMembers(t, name);
  }

  /** The line holds exactly the interested subscribers, each once: this is where the two tables
      have to be disjoint. */
  lemma LineIsTheInterested<S>(t: Tables<S>, name: string, order: seq<S>)
    requires SubscriptionTables.Inv(t) && NoDuplicates(order)
    ensures NoDuplicates(Line(t, name, order))
    ensures forall s :: s in order ==> (s in Line(t, name, order) <==> Interested(t, name, s))
    ensures forall s :: s in order ==> (s in Line(t, name, order) <==> s in t.all || (name in t.named && s in t.named[name]))
  {
    hide InOrder, Interested, NamedMembers, SubscriptionTables.Inv, Line;
    LineOfBothTables(t, name, order);
    var named, all := InOrder(order, NamedMembers(t, name)), InOrder(order, t.all);
    InOrderNoDuplicates(order, t.all);
    InOrderNoDuplicates(order, NamedMembers(t, name));
    forall s | s in named ensures s !in all {
      InOrderOnlyMembers(order, NamedMembers(t, name), s);
      InOrderOnlyMembers(order, t.all, s);
      InterestedMembers(t, name, s);
    }
    NoDuplicatesTogether(named, all);
    forall s | s in order
      ensures s in Line(t, name, order) <==> Interested(t, name, s)
      ensures Interested(t, name, s) <==> s in t.all || (name in t.named && s in t.named[name])
    {
      InOrderMembers(order, t.all, s);
      InOrderMembers(order, NamedMembers(t, name), s);
      InterestedMembers(t, name, s);
    }
  }

  lemma NoDuplicatesTogether<S>(a: seq<S>, b: seq<S>)
    requires NoDuplicates(a) && NoDuplicates(b) && forall s :: s in a ==> s !in b
    ensures NoDuplicates(a + b)
  {
    forall i, j | 0 <= i < j < |a + b| ensures (a + b)[i] != (a + b)[j] {
      if i < |a| <= j {
        assert a[i] in a && b[j - |a|] in b;
      }
    }
  }

  lemma LineOfBothTables<S>(t: Tables<S>, name: string, order: seq<S>)
    ensures Line(t, name, order) == InOrder(order, NamedMembers(t, name)) + InOrder(order, t.all)
  {
  }

  /** Nobody who wants all events comes before somebody who named this one. */
  lemma NamedComeFirst<S>(t: Tables<S>, name: string, order: seq<S>, i: nat, j: nat)
    requires SubscriptionTables.Inv(t) && i < |Line(t, name, order)| && j < |Line(t, name, order)|
    requires Line(t, name, order)[i] in t.all && name in t.named && Line(t, name, order)[j] in t.named[name]
    ensures j < i
  {
    var named, all := NamedLine(t, name, order), InOrder(order, t.all);
    if i < |named| {
      InOrderOnlyMembers(order, t.named[name], named[i]);
    }
    if j >= |named| {
      InOrderOnlyMembers(order, t.all, all[j - |named|]);
    }
  }

  lemma {:induction false} CallsAfterPrevention<S>(line: seq<S>, behaviour: Behaviour<S>, before: seq<S>)
    ensures before <= Calls(line, behaviour, before)
    ensures Prevented(line, behaviour, before) <==>
              var calls := Calls(line, behaviour, before);
              exists i :: |before| <= i < |calls| && (ReactionAt(behaviour, calls, i).prevents || ReactionAt(behaviour, calls, i).stops)
    decreases |line|
  {
    CallsExtend(line, behaviour, before);
    if line != [] {
      var calls, r := Calls(line, behaviour, before), behaviour(before, line[0]);
      CallsExtend(line[1..], behaviour, before + [line[0]]);
      assert before + [line[0]] <= calls;
      assert calls[..|before|] == before && calls[|before|] == line[0];
      assert ReactionAt(behaviour, calls, |before|) == r;
      if !EndsDelivery(r) {
        CallsAfterPrevention(line[1..], behaviour, before + [line[0]]);
      }
    }
  }

  /** The default action is prevented exactly when some handler that was called prevented it or
      stopped the event; the delivery throws or stops exactly when the last handler called does. */
  lemma OutcomeOfTheCalls<S>(line: seq<S>, behaviour: Behaviour<S>)
    ensures var calls := Calls(line, behaviour, []);
            && (Prevented(line, behaviour, []) <==>
                  exists i :: 0 <= i < |calls| && (ReactionAt(behaviour, calls, i).prevents || ReactionAt(behaviour, calls, i).stops))
            && (Ending(line, behaviour, []).throws <==> calls != [] && ReactionAt(behaviour, calls, |calls| - 1).throws)
            && (Ending(line, behaviour, []).stops <==> calls != [] && ReactionAt(behaviour, calls, |calls| - 1).stops)
  {
    CallsAfterPrevention(line, behaviour, []);
    LastReaction(line, behaviour, []);
  }

  lemma {:induction false} LastReaction<S>(line: seq<S>, behaviour: Behaviour<S>, before: seq<S>)
    ensures var calls := Calls(line, behaviour, before);
            && before <= calls
            && (|calls| == |before| ==> line == [])
            && (line != [] ==>
                  Ending(line, behaviour, before)
                  == if EndsDelivery(ReactionAt(behaviour, calls, |calls| - 1)) then ReactionAt(behaviour, calls, |calls| - 1) else PASS_ON)
            && (line == [] ==> Ending(line, behaviour, before) == PASS_ON)
    decreases |line|
  {
    CallsExtend(line, behaviour, before);
    if line != [] {
      var calls, next := Calls(line, behaviour, before), before + [line[0]];
      CallsExtend(line[1..], behaviour, next);
      LastReaction(line[1..], behaviour, next);
      assert next <= calls && calls[..|before|] == before && calls[|before|] == line[0];
    }
  }

  /** No subscriber is called twice, and nobody who is not interested is called. */
  lemma DeliveryCallsInterestedOnce<S>(t: Tables<S>, name: string, order: seq<S>, behaviour: Behaviour<S>)
    requires SubscriptionTables.Inv(t) && NoDuplicates(order)
    ensures var calls := Calls(Line(t, name, order), behaviour, []);
            && NoDuplicates(calls)
            && (forall s :: s in order && s in calls ==> Interested(t, name, s))
            && (!EndsDelivery(Ending(Line(t, name, order), behaviour, [])) ==>
                  forall s :: s in order && Interested(t, name, s) ==> s in calls)
  {
    var line := Line(t, name, order);
    LineIsTheInterested(t, name, order);
    CallsExtend(line, behaviour, []);
    assert [] + line == line;
  }

  // ----- The methods -----

  /** What the caller learns. */
  datatype Delivery<S> = Delivery(calls: seq<S>, thrown: bool, result: bool)

  /** One call of a handler. */
  method CallHandler<S>(event: Event, subscriber: S, behaviour: Behaviour<S>, calls: seq<S>) returns (thrown: bool)
    requires event.Valid()
    modifies event
    ensures event.Valid()
    ensures thrown == behaviour(calls, subscriber).throws
    ensures event.stopProcessingFlag == (old(event.stopProcessingFlag) || behaviour(calls, subscriber).stops)
    ensures event.preventDefaultFlag
         == (old(event.preventDefaultFlag) || behaviour(calls, subscriber).prevents || behaviour(calls, subscriber).stops)
  {
    var reaction := behaviour(calls, subscriber);
    if reaction.prevents { event.PreventDefault(); }
    if reaction.stops { event.StopProcessing(); }
    thrown := reaction.throws;
  }

  /** The loop over one set, left when the event is stopped. The flag is looked at after a call
      only, so an event that comes in stopped still reaches one handler. */
  method CallAll<S(==)>(event: Event, members: seq<S>, behaviour: Behaviour<S>, before: seq<S>)
    returns (calls: seq<S>, thrown: bool)
    requires event.Valid()
    modifies event
    ensures event.Valid()
    ensures var line := if old(event.stopProcessingFlag) && members != [] then members[..1] else members;
            && calls == Calls(line, behaviour, before)
            && thrown == Ending(line, behaviour, before).throws
            && event.stopProcessingFlag == (old(event.stopProcessingFlag) || Ending(line, behaviour, before).stops)
            && event.preventDefaultFlag == (old(event.preventDefaultFlag) || Prevented(line, behaviour, before))
  {
    calls, thrown := before, false;
    ghost var line := if event.stopProcessingFlag && members != [] then members[..1] else members;
    for k := 0 to |members|
      invariant event.Valid() && event.stopProcessingFlag == old(event.stopProcessingFlag) && !thrown
      invariant k <= |line| && (k > 0 ==> line == members)
      invariant Calls(line, behaviour, before) == Calls(line[k..], behaviour, calls)
      invariant Ending(line, behaviour, before) == Ending(line[k..], behaviour, calls)
      invariant old(event.preventDefaultFlag) || Prevented(line, behaviour, before)
            <==> event.preventDefaultFlag || Prevented(line[k..], behaviour, calls)
    {
      assert line[k..][0] == members[k] && line[k..][1..] == line[k + 1..];
      thrown := CallHandler(event, members[k], behaviour, calls);
      calls := calls + [members[k]];
      if thrown || event.stopProcessingFlag {
        if old(event.stopProcessingFlag) { assert line[k + 1..] == []; }
        return;
      }
    }
    assert line[|line|..] == [];
  }

  /** Who can be called: an event that comes in stopped reaches the first of those who named it. */
  function Reachable<S>(t: Tables<S>, name: string, order: seq<S>, stopped: bool): seq<S> {
    if !stopped then Line(t, name, order)
    else if NamedLine(t, name, order) == [] then []
    else NamedLine(t, name, order)[..1]
  }

  /** `sendEventSynchronous`: those who named the event first, then those who want everything, up
      to the first handler that stops it; and the answer is always whether the default action may
      go ahead. */
  method SendEventSynchronous<S(==)>(t: Tables<S>, event: Event, order: seq<S>, behaviour: Behaviour<S>)
    returns (d: Delivery<S>)
    requires event.Valid()
    modifies event
    ensures event.Valid()
    ensures var line := Reachable(t, event.eventName, order, old(event.stopProcessingFlag));
            && d.calls == Calls(line, behaviour, [])
            && d.thrown == Ending(line, behaviour, []).throws
            && event.stopProcessingFlag == (old(event.stopProcessingFlag) || Ending(line, behaviour, []).stops)
            && event.preventDefaultFlag == (old(event.preventDefaultFlag) || Prevented(line, behaviour, []))
    ensures !d.thrown ==> d.result == !event.preventDefaultFlag
    ensures old(event.stopProcessingFlag) ==>
              d.calls == if NamedLine(t, event.eventName, order) == [] then [] else [NamedLine(t, event.eventName, order)[0]]
  {
    var calls, thrown := [], false;
    ghost var named, all := NamedLine(t, event.eventName, order), InOrder(order, t.all);
    DeliveryInTwoParts(named, all, behaviour, []);
    assert [] + named == named;
    if event.eventName in t.named {
      calls, thrown := CallAll(event, InOrder(order, t.named[event.eventName]), behaviour, []);
      if thrown { return Delivery(calls, true, false); }
    }
    if event.stopProcessingFlag { return Delivery(calls, false, false); }
    calls, thrown := CallAll(event, InOrder(order, t.all), behaviour, calls);
    return Delivery(calls, thrown, !event.preventDefaultFlag);
  }
}
