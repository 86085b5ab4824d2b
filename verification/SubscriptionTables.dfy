/** The two subscription tables of a SubscriptionService as values, what each operation does to
    them, and the abstract map from subscribers to interests that they implement. */
module SubscriptionTables {
  import opened Basics

  /** Subscribers to everything, and subscribers by event name. */
  datatype Tables<S(==)> = Tables(all: set<S>, named: map<string, set<S>>)

  function Empty<S>(): Tables<S> {
    Tables({}, map[])
  }

  /** Remove `s` from every name; a set that this empties is erased. */
  function DropFrom<S>(named: map<string, set<S>>, s: S): map<string, set<S>> {
    map name | name in named && named[name] != {s} :: named[name] - {s}
  }

  function AddName<S>(named: map<string, set<S>>, name: string, s: S): map<string, set<S>> {
    named[name := (if name in named then named[name] else {}) + {s}]
  }

  function AddNames<S>(named: map<string, set<S>>, names: seq<string>, s: S): map<string, set<S>>
    decreases |names|
  {
    if names == [] then named else AddNames(AddName(named, names[0], s), names[1..], s)
  }

  function RemoveName<S>(named: map<string, set<S>>, name: string, s: S): map<string, set<S>> {
    if name !in named || s !in named[name] then named
    else if named[name] == {s} then named - {name}
    else named[name := named[name] - {s}]
  }

  function RemoveNames<S>(named: map<string, set<S>>, names: seq<string>, s: S): map<string, set<S>>
    decreases |names|
  {
    if names == [] then named else RemoveNames(RemoveName(named, names[0], s), names[1..], s)
  }

  function NamesOf<S>(named: map<string, set<S>>, s: S): set<string> {
    set name | name in named && s in named[name]
  }

  datatype Op = SubscribeAll | SubscribeNamed(names: seq<string>) | Unsubscribe | UnsubscribeNamed(names: seq<string>)

  /** What the operation leaves in the tables. */
  function Apply<S>(t: Tables<S>, op: Op, s: S): Tables<S> {
    match op
    case SubscribeAll => Tables(t.all + {s}, DropFrom(t.named, s))
    case SubscribeNamed(names) => if s in t.all then t else t.(named := AddNames(t.named, names, s))
    case Unsubscribe => if s in t.all then t.(all := t.all - {s}) else t.(named := DropFrom(t.named, s))
    case UnsubscribeNamed(names) => t.(named := RemoveNames(t.named, names, s))
  }

  /** What the operation returns: whether it inserted or erased anything. */
  predicate Reports<S>(t: Tables<S>, op: Op, s: S) {
    match op
    case SubscribeAll => s !in t.all
    case SubscribeNamed(names) => s !in t.all && !(SetOf(names) <= NamesOf(t.named, s))
    case Unsubscribe => s in t.all || NamesOf(t.named, s) != {}
    case UnsubscribeNamed(names) => SetOf(names) * NamesOf(t.named, s) != {}
  }

  ghost predicate Inv<S>(t: Tables<S>) {
    forall name :: name in t.named ==> t.named[name] != {} && t.named[name] !! t.all
  }

  /** The abstraction: what one subscriber wants to hear. */
  datatype Interest = Nothing | Everything | Names(names: set<string>)

  function FromNames(names: set<string>): Interest {
    if names == {} then Nothing else Names(names)
  }

  function InterestOf<S>(t: Tables<S>, s: S): Interest {
    if s in t.all then Everything else FromNames(NamesOf(t.named, s))
  }

  function NameSet(interest: Interest): set<string> {
    if interest.Names? then interest.names else {}
  }

  function SetOf(names: seq<string>): set<string> {
    set i | 0 <= i < |names| :: names[i]
  }

  /** The operations as the abstract map sees them. */
  function ApplyInterest(interest: Interest, op: Op): Interest {
    match op
    case SubscribeAll => Everything
    case SubscribeNamed(names) =>
      if interest.Everything? then Everything else FromNames(NameSet(interest) + SetOf(names))
    case Unsubscribe => Nothing
    case UnsubscribeNamed(names) =>
      if interest.Everything? then Everything else FromNames(NameSet(interest) - SetOf(names))
  }

  // ----- One operation -----

  lemma AddNameEffect<S>(named: map<string, set<S>>, name: string, s: S)
    ensures NamesOf(AddName(named, name, s), s) == NamesOf(named, s) + {name}
  {
  }

  lemma RemoveNameEffect<S>(named: map<string, set<S>>, name: string, s: S)
    ensures NamesOf(RemoveName(named, name, s), s) == NamesOf(named, s) - {name}
  {
  }

  lemma SetOfStep(names: seq<string>)
    requires names != []
    ensures SetOf(names) == {names[0]} + SetOf(names[1..])
  {
  }

  lemma {:induction false} AddNamesEffect<S>(t: Tables<S>, names: seq<string>, s: S)
    requires Inv(t) && s !in t.all
    ensures var u := t.(named := AddNames(t.named, names, s));
            && Inv(u)
            && NamesOf(u.named, s) == NamesOf(t.named, s) + SetOf(names)
            && forall r :: r != s ==> NamesOf(u.named, r) == NamesOf(t.named, r)
    decreases |names|
  {
    if names == [] {
      assert SetOf(names) == {};
    } else {
      var first := t.(named := AddName(t.named, names[0], s));
      AddNameEffect(t.named, names[0], s);
      forall r | r != s ensures NamesOf(first.named, r) == NamesOf(t.named, r) {}
      AddNamesEffect(first, names[1..], s);
      SetOfStep(names);
    }
  }

  lemma {:induction false} RemoveNamesEffect<S>(t: Tables<S>, names: seq<string>, s: S)
    requires Inv(t)
    ensures var u := t.(named := RemoveNames(t.named, names, s));
            && Inv(u)
            && NamesOf(u.named, s) == NamesOf(t.named, s) - SetOf(names)
            && forall r :: r != s ==> NamesOf(u.named, r) == NamesOf(t.named, r)
    decreases |names|
  {
    if names == [] {
      assert SetOf(names) == {};
    } else {
      var first := t.(named := RemoveName(t.named, names[0], s));
      RemoveNameEffect(t.named, names[0], s);
      forall r | r != s ensures NamesOf(first.named, r) == NamesOf(t.named, r) {}
      RemoveNamesEffect(first, names[1..], s);
      SetOfStep(names);
    }
  }

  lemma DropFromEffect<S>(t: Tables<S>, s: S)
    requires Inv(t)
    ensures Inv(t.(named := DropFrom(t.named, s)))
    ensures NamesOf(DropFrom(t.named, s), s) == {}
    ensures forall r :: r != s ==> NamesOf(DropFrom(t.named, s), r) == NamesOf(t.named, r)
  {
  }

  /** A subscriber in the table of all events has no names: the tables are disjoint. */
  lemma TablesAreDisjoint<S>(t: Tables<S>, s: S)
    requires Inv(t) && s in t.all
    ensures NamesOf(t.named, s) == {}
  {
  }

  lemma SubtractingChanges(known: set<string>, names: set<string>)
    ensures known - names != known <==> names * known != {}
  {
    forall name | name in known ensures name in known - names <==> name !in names * known {}
  }

  /** The tables implement the abstract map: the operation changes the interest of its subscriber
      as the map says, leaves every other subscriber alone, and returns true exactly when the map
      changed. */
  lemma OperationRefinesMap<S>(t: Tables<S>, op: Op, s: S)
    requires Inv(t)
    ensures Inv(Apply(t, op, s))
    ensures InterestOf(Apply(t, op, s), s) == ApplyInterest(InterestOf(t, s), op)
    ensures forall r :: r != s ==> InterestOf(Apply(t, op, s), r) == InterestOf(t, r)
    ensures Reports(t, op, s) <==> InterestOf(Apply(t, op, s), s) != InterestOf(t, s)
  {
    DropFromEffect(t, s);
    if s in t.all { TablesAreDisjoint(t, s); }
    match op
    case SubscribeAll =>
    case SubscribeNamed(names) =>
      if s !in t.all { AddNamesEffect(t, names, s); }
    case Unsubscribe =>
    case UnsubscribeNamed(names) =>
      RemoveNamesEffect(t, names, s);
      SubtractingChanges(NamesOf(t.named, s), SetOf(names));
  }

  /** Unsubscribing leaves no trace in either table. */
  lemma UnsubscribeLeavesNoTrace<S>(t: Tables<S>, s: S)
    requires Inv(t)
    ensures var u := Apply(t, Unsubscribe, s);
            s !in u.all && forall name :: name in u.named ==> s !in u.named[name]
  {
  }

  // ----- The tables themselves -----

  predicate IsNamed<S>(t: Tables<S>, name: string, s: S) {
    name in t.named && s in t.named[name]
  }

  lemma NamesAreThoseNamed<S>(t: Tables<S>, names: seq<string>)
    requires Inv(t)
    ensures forall s, name :: s !in t.all ==> (name in NameSet(InterestOf(t, s)) <==> IsNamed(t, name, s))
    ensures forall s :: InterestOf(t, s).Everything? <==> s in t.all
    ensures forall s, name :: s in t.all ==> !IsNamed(t, name, s)
    ensures forall name :: name in SetOf(names) <==> name in names
  {
    forall s, name | s !in t.all ensures name in NameSet(InterestOf(t, s)) <==> IsNamed(t, name, s) {
      assert name in NamesOf(t.named, s) <==> IsNamed(t, name, s);
    }
  }

  /** Each operation in terms of the two tables, for the subscriber and for everybody else. */
  lemma OperationOnTables<S>(t: Tables<S>, op: Op, s: S)
    requires Inv(t)
    ensures forall r :: r != s ==> (r in Apply(t, op, s).all <==> r in t.all)
    ensures forall r, name :: r != s ==> (IsNamed(Apply(t, op, s), name, r) <==> IsNamed(t, name, r))
    ensures op.SubscribeAll? ==> s in Apply(t, op, s).all && forall name :: !IsNamed(Apply(t, op, s), name, s)
    ensures op.Unsubscribe? ==> s !in Apply(t, op, s).all && forall name :: !IsNamed(Apply(t, op, s), name, s)
    ensures op.SubscribeNamed? ==>
              && (s in Apply(t, op, s).all <==> s in t.all)
              && forall name :: IsNamed(Apply(t, op, s), name, s) <==> IsNamed(t, name, s) || (s !in t.all && name in op.names)
    ensures op.UnsubscribeNamed? ==>
              && (s in Apply(t, op, s).all <==> s in t.all)
              && forall name :: IsNamed(Apply(t, op, s), name, s) <==> IsNamed(t, name, s) && name !in op.names
  {
    var u := Apply(t, op, s);
    OperationRefinesMap(t, op, s);
    var names := if op.SubscribeNamed? || op.UnsubscribeNamed? then op.names else [];
    NamesAreThoseNamed(t, names);
    NamesAreThoseNamed(u, names);
    hide Apply, Inv, IsNamed, InterestOf, Reports;
    forall r, name | r != s ensures (r in u.all <==> r in t.all) && (IsNamed(u, name, r) <==> IsNamed(t, name, r)) {
      assert InterestOf(u, r) == InterestOf(t, r);
    }
  }

  /** The result says whether the tables changed for the subscriber. */
  lemma ReportOnTables<S>(t: Tables<S>, op: Op, s: S)
    requires Inv(t)
    ensures Reports(t, op, s) <==>
              (s in Apply(t, op, s).all) != (s in t.all) || exists name :: IsNamed(Apply(t, op, s), name, s) != IsNamed(t, name, s)
  {
    OperationRefinesMap(t, op, s);
    SameInterestIff(t, Apply(t, op, s), s);
  }

  lemma SameInterestIff<S>(t: Tables<S>, u: Tables<S>, s: S)
    requires Inv(t) && Inv(u)
    ensures InterestOf(u, s) != InterestOf(t, s) <==>
              (s in u.all) != (s in t.all) || exists name :: IsNamed(u, name, s) != IsNamed(t, name, s)
  {
    NamesAreThoseNamed(t, []);
    NamesAreThoseNamed(u, []);
    if InterestOf(u, s) != InterestOf(t, s) && (s in u.all) == (s in t.all) {
      var name :| (name in NamesOf(u.named, s)) != (name in NamesOf(t.named, s));
      assert IsNamed(u, name, s) != IsNamed(t, name, s);
    }
  }

  // ----- Whole histories -----

  datatype Request<S> = Request(subscriber: S, op: Op)

  function RunTables<S>(t: Tables<S>, requests: seq<Request<S>>): Tables<S>
    decreases |requests|
  {
    if requests == [] then t
    else RunTables(Apply(t, requests[0].op, requests[0].subscriber), requests[1..])
  }

  /** The interest of one subscriber after its own requests, as if it were alone. */
  function RunInterest<S(==)>(interest: Interest, requests: seq<Request<S>>, s: S): Interest
    decreases |requests|
  {
    if requests == [] then interest
    else
      var next := if requests[0].subscriber == s then ApplyInterest(interest, requests[0].op) else interest;
      RunInterest(next, requests[1..], s)
  }

  lemma {:induction false} HistoryFromInterest<S>(t: Tables<S>, requests: seq<Request<S>>, s: S)
    requires Inv(t)
    ensures Inv(RunTables(t, requests))
    ensures InterestOf(RunTables(t, requests), s) == RunInterest(InterestOf(t, s), requests, s)
    decreases |requests|
  {
    hide Inv, InterestOf, Apply, ApplyInterest, Reports;
    if requests != [] {
      OperationRefinesMap(t, requests[0].op, requests[0].subscriber);
      HistoryFromInterest(Apply(t, requests[0].op, requests[0].subscriber), requests[1..], s);
    }
  }

  /** In every reachable state no subscriber is in both tables and no name has an empty set, and
      what a subscriber is subscribed to depends on its own requests only. */
  lemma ReachableTablesImplementMap<S>(requests: seq<Request<S>>, s: S)
    ensures var t := RunTables(Empty<S>(), requests);
            && (forall name :: name in t.named ==> t.named[name] != {} && t.named[name] !! t.all)
            && InterestOf(t, s) == RunInterest(Nothing, requests, s)
  {
    HistoryFromInterest(Empty<S>(), requests, s);
  }
}
