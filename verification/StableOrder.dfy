/** The ordering discipline of the MBSTF work lists: a stable sort on an optional deadline,
    items without a deadline last. The packager list, the fetch lists and the factory lists
    are all kept in this order, so the theory is generic in the item and in its key. */
module StableOrder {
  import opened Basics

  /** A point in time in nanoseconds, or no deadline at all. */
  type Deadline = Option<int>

  /** The comparator given to `std::list::sort`. */
  predicate Before(a: Deadline, b: Deadline) {
    if a.Some? && b.Some? then a.value < b.value else a.Some?
  }

  ghost predicate Ordered<T>(key: T -> Deadline, s: seq<T>) {
    forall i, j :: 0 <= i < j < |s| ==> !Before(key(s[j]), key(s[i]))
  }

  /** Where `push_back` followed by a stable sort puts `x` in a list that is already in order:
      behind everything that it does not strictly precede. */
  function Insert<T>(key: T -> Deadline, s: seq<T>, x: T): (r: seq<T>)
    ensures |r| == |s| + 1
  {
    if s == [] || !Before(key(x), key(s[|s| - 1])) then s + [x]
    else Insert(key, s[..|s| - 1], x) + [s[|s| - 1]]
  }

  function InsertAll<T>(key: T -> Deadline, s: seq<T>, xs: seq<T>): (r: seq<T>)
    ensures |r| == |s| + |xs|
    decreases |xs|
  {
    if xs == [] then s else InsertAll(key, Insert(key, s, xs[0]), xs[1..])
  }

  /** Stable insertion sort, arrivals first to last. */
  function StableSort<T>(key: T -> Deadline, s: seq<T>): (r: seq<T>)
    ensures |r| == |s|
  {
    if s == [] then [] else Insert(key, StableSort(key, s[..|s| - 1]), s[|s| - 1])
  }

  function IfKey<T>(key: T -> Deadline, x: T, d: Deadline): seq<T> {
    if key(x) == d then [x] else []
  }

  /** The items whose key is `d`, in order of appearance. */
  function Class<T>(key: T -> Deadline, s: seq<T>, d: Deadline): seq<T> {
    if s == [] then [] else IfKey(key, s[0], d) + Class(key, s[1..], d)
  }

  /** What the standard library promises of a stable sort, said without an algorithm. */
  ghost predicate IsStableSortOf<T>(key: T -> Deadline, r: seq<T>, s: seq<T>) {
    && Ordered(key, r)
    && forall d :: Class(key, r, d) == Class(key, s, d)
  }

  /** The comparator is a strict weak order: irreflexive, transitive, and being incomparable is
      having the same key, with "no deadline" the greatest key. */
  lemma ComparatorIsStrictWeakOrder(a: Deadline, b: Deadline, c: Deadline)
    ensures !Before(a, a)
    ensures Before(a, b) && Before(b, c) ==> Before(a, c)
    ensures !Before(a, b) && !Before(b, a) <==> a == b
    ensures !Before(None, a)
    ensures forall x, y :: Before(Some(x), Some(y)) == (x < y)
    ensures forall x :: Before(Some(x), None)
  {
  }

  lemma {:induction false} ClassAppend<T>(key: T -> Deadline, a: seq<T>, b: seq<T>, d: Deadline)
    ensures Class(key, a + b, d) == Class(key, a, d) + Class(key, b, d)
  {
    hide IfKey;
    if a == [] {
      assert a + b == b;
    } else {
      ClassAppend(key, a[1..], b, d);
      assert (a + b)[1..] == a[1..] + b;
      var head := IfKey(key, a[0], d);
      assert head + (Class(key, a[1..], d) + Class(key, b, d)) == (head + Class(key, a[1..], d)) + Class(key, b, d);
    }
  }

  /** Membership in a class is membership in the list with that key. */
  lemma {:induction false} ClassMember<T>(key: T -> Deadline, s: seq<T>, d: Deadline, x: T)
    ensures x in Class(key, s, d) <==> x in s && key(x) == d
  {
    if s != [] {
      ClassMember(key, s[1..], d, x);
    }
  }

  lemma {:induction false} InsertElements<T>(key: T -> Deadline, s: seq<T>, x: T)
    ensures multiset(Insert(key, s, x)) == multiset(s) + multiset{x}
  {
    if s == [] || !Before(key(x), key(s[|s| - 1])) {
    } else {
      InsertElements(key, s[..|s| - 1], x);
      assert s == s[..|s| - 1] + [s[|s| - 1]];
    }
  }

  lemma {:induction false} InsertAllElements<T>(key: T -> Deadline, s: seq<T>, xs: seq<T>)
    ensures multiset(InsertAll(key, s, xs)) == multiset(s) + multiset(xs)
    decreases |xs|
  {
    if xs != [] {
      InsertElements(key, s, xs[0]);
      InsertAllElements(key, Insert(key, s, xs[0]), xs[1..]);
      assert xs == [xs[0]] + xs[1..];
    }
  }

  lemma {:induction false} InsertKeepsOrder<T>(key: T -> Deadline, s: seq<T>, x: T)
    requires Ordered(key, s)
    ensures Ordered(key, Insert(key, s, x))
  {
    if s == [] || !Before(key(x), key(s[|s| - 1])) {
    } else {
      var front, last := s[..|s| - 1], s[|s| - 1];
      InsertKeepsOrder(key, front, x);
      InsertElements(key, front, x);
      var r := Insert(key, front, x);
      forall i | 0 <= i < |r| ensures !Before(key(last), key(r[i])) {
        assert r[i] in multiset(r);
        assert r[i] in front || r[i] == x;
      }
    }
  }

  lemma {:induction false} InsertAllKeepsOrder<T>(key: T -> Deadline, s: seq<T>, xs: seq<T>)
    requires Ordered(key, s)
    ensures Ordered(key, InsertAll(key, s, xs))
    decreases |xs|
  {
    if xs != [] {
      InsertKeepsOrder(key, s, xs[0]);
      InsertAllKeepsOrder(key, Insert(key, s, xs[0]), xs[1..]);
    }
  }

  lemma {:induction false} InsertClass<T>(key: T -> Deadline, s: seq<T>, x: T, d: Deadline)
    ensures Class(key, Insert(key, s, x), d) == Class(key, s, d) + Class(key, [x], d)
  {
    if s == [] || !Before(key(x), key(s[|s| - 1])) {
      ClassAppend(key, s, [x], d);
    } else {
      var front, last := s[..|s| - 1], s[|s| - 1];
      InsertClass(key, front, x, d);
      ClassAppend(key, Insert(key, front, x), [last], d);
      assert s == front + [last];
      ClassAppend(key, front, [last], d);
    }
  }

  /** The insertion sort meets the standard library's promise. */
  lemma {:induction false} StableSortIsStable<T>(key: T -> Deadline, s: seq<T>)
    ensures IsStableSortOf(key, StableSort(key, s), s)
  {
    if s != [] {
      var front, last := s[..|s| - 1], s[|s| - 1];
      StableSortIsStable(key, front);
      InsertKeepsOrder(key, StableSort(key, front), last);
      forall d ensures Class(key, StableSort(key, s), d) == Class(key, s, d) {
        InsertClass(key, StableSort(key, front), last, d);
        assert s == front + [last];
        ClassAppend(key, front, [last], d);
      }
    }
  }

  lemma HeadsAgree<T>(key: T -> Deadline, r: seq<T>, q: seq<T>)
    requires r != [] && Ordered(key, r) && Ordered(key, q)
    requires forall d :: Class(key, r, d) == Class(key, q, d)
    ensures q != [] && r[0] == q[0]
  {
    var d := key(r[0]);
    ClassMember(key, r, d, r[0]);
    ClassMember(key, q, d, r[0]);
    ClassMember(key, q, key(q[0]), q[0]);
    ClassMember(key, r, key(q[0]), q[0]);
    ComparatorIsStrictWeakOrder(d, key(q[0]), d);
    assert Class(key, r, d)[0] == r[0] && Class(key, q, d)[0] == q[0];
  }

  lemma {:induction false} OrderedListsWithEqualClasses<T>(key: T -> Deadline, r: seq<T>, q: seq<T>)
    requires Ordered(key, r) && Ordered(key, q)
    requires forall d :: Class(key, r, d) == Class(key, q, d)
    ensures r == q
  {
    if r == [] {
      if q != [] {
        HeadsAgree(key, q, r);
      }
    } else {
      HeadsAgree(key, r, q);
      forall d ensures Class(key, r[1..], d) == Class(key, q[1..], d) {
        var head := IfKey(key, r[0], d);
        assert Class(key, r, d) == head + Class(key, r[1..], d);
        assert Class(key, q, d) == head + Class(key, q[1..], d);
        assert Class(key, r[1..], d) == Class(key, r, d)[|head|..];
      }
      OrderedListsWithEqualClasses(key, r[1..], q[1..]);
      assert r == [r[0]] + r[1..] && q == [q[0]] + q[1..];
    }
  }

  /** There is only one stable sort, so the model of `std::list::sort` loses nothing. */
  lemma StableSortIsUnique<T>(key: T -> Deadline, r: seq<T>, s: seq<T>)
    ensures IsStableSortOf(key, r, s) <==> r == StableSort(key, s)
  {
    StableSortIsStable(key, s);
    if IsStableSortOf(key, r, s) {
      OrderedListsWithEqualClasses(key, r, StableSort(key, s));
    }
  }

  /** Sorting a list again changes nothing. */
  lemma SortedListIsItsOwnSort<T>(key: T -> Deadline, s: seq<T>)
    requires Ordered(key, s)
    ensures StableSort(key, s) == s
  {
  }

  lemma StableSortElements<T>(key: T -> Deadline, s: seq<T>)
    ensures multiset(StableSort(key, s)) == multiset(s)
  {
    if s != [] {
      StableSortElements(key, s[..|s| - 1]);
      InsertElements(key, StableSort(key, s[..|s| - 1]), s[|s| - 1]);
      assert s == s[..|s| - 1] + [s[|s| - 1]];
    }
  }

  // ----- Earliest deadline first, first come first served on ties -----

  /** The item a fair dispatcher would serve from an unsorted waiting room: the first of those
      with the earliest deadline. */
  function NextToServe<T>(key: T -> Deadline, waiting: seq<T>): (m: nat)
    requires waiting != []
    ensures m < |waiting|
    ensures forall i :: 0 <= i < |waiting| ==> !Before(key(waiting[i]), key(waiting[m]))
    ensures forall i :: 0 <= i < m ==> Before(key(waiting[m]), key(waiting[i]))
  {
    if |waiting| == 1 then 0
    else
      var front := waiting[..|waiting| - 1];
      var m := NextToServe(key, front);
      if Before(key(waiting[|waiting| - 1]), key(waiting[m])) then |waiting| - 1 else m
  }

  function Without<T>(s: seq<T>, m: nat): seq<T>
    requires m < |s|
  {
    s[..m] + s[m + 1..]
  }

  lemma SingletonClass<T>(key: T -> Deadline, x: T, d: Deadline)
    ensures Class(key, [x], d) == IfKey(key, x, d)
  {
  }

  lemma FirstMinimalLeadsItsClass<T>(key: T -> Deadline, waiting: seq<T>, m: nat, d: Deadline)
    requires m < |waiting|
    requires forall i :: 0 <= i < m ==> Before(key(waiting[m]), key(waiting[i]))
    ensures Class(key, waiting, d) == IfKey(key, waiting[m], d) + Class(key, Without(waiting, m), d)
  {
    hide Class;
    var before, x, after := waiting[..m], waiting[m], waiting[m + 1..];
    assert waiting == before + ([x] + after);
    ClassAppend(key, before, [x] + after, d);
    ClassAppend(key, [x], after, d);
    SingletonClass(key, x, d);
    ClassAppend(key, before, after, d);
    if key(x) == d && Class(key, before, d) != [] {
      ClassMember(key, before, d, Class(key, before, d)[0]);
    }
  }

  lemma MinimalInFrontKeepsOrder<T>(key: T -> Deadline, x: T, rest: seq<T>)
    requires forall y :: y in rest ==> !Before(key(y), key(x))
    ensures Ordered(key, [x] + StableSort(key, rest))
  {
    StableSortIsStable(key, rest);
    StableSortElements(key, rest);
    var sorted := StableSort(key, rest);
    forall i | 0 <= i < |sorted| ensures !Before(key(sorted[i]), key(x)) {
      assert sorted[i] in multiset(sorted);
    }
  }

  /** The front of the sorted list is that item, and popping the front is its removal. */
  lemma ServingTheFront<T>(key: T -> Deadline, waiting: seq<T>)
    requires waiting != []
    ensures var m := NextToServe(key, waiting);
            StableSort(key, waiting) == [waiting[m]] + StableSort(key, Without(waiting, m))
  {
    var m := NextToServe(key, waiting);
    var x, rest := waiting[m], Without(waiting, m);
    MinimalInFrontKeepsOrder(key, x, rest);
    StableSortIsStable(key, rest);
    forall d ensures Class(key, [x] + StableSort(key, rest), d) == Class(key, waiting, d) {
      FirstMinimalLeadsItsClass(key, waiting, m, d);
      SingletonClass(key, x, d);
      ClassAppend(key, [x], StableSort(key, rest), d);
    }
    StableSortIsUnique(key, [x] + StableSort(key, rest), waiting);
  }

  datatype QueueOp<T> = Add(item: T) | Serve

  /** What the code keeps: a sorted list, inserted into and popped at the front. */
  function RunSortedList<T>(key: T -> Deadline, list: seq<T>, ops: seq<QueueOp<T>>): seq<T>
    decreases |ops|
  {
    if ops == [] then list
    else
      var next := match ops[0]
        case Add(x) => Insert(key, list, x)
        case Serve => if list == [] then [] else list[1..];
      RunSortedList(key, next, ops[1..])
  }

  /** The reference: the waiting items in order of arrival. */
  function RunWaitingRoom<T>(key: T -> Deadline, waiting: seq<T>, ops: seq<QueueOp<T>>): seq<T>
    decreases |ops|
  {
    if ops == [] then waiting
    else
      var next := match ops[0]
        case Add(x) => waiting + [x]
        case Serve => if waiting == [] then [] else Without(waiting, NextToServe(key, waiting));
      RunWaitingRoom(key, next, ops[1..])
  }

  /** After any run of adds and front removals the list is exactly the waiting items, ordered by
      deadline and then by arrival. */
  lemma {:induction false} SortedListRefinesWaitingRoom<T>(key: T -> Deadline, waiting: seq<T>, ops: seq<QueueOp<T>>)
    ensures RunSortedList(key, StableSort(key, waiting), ops)
         == StableSort(key, RunWaitingRoom(key, waiting, ops))
    decreases |ops|
  {
    if ops != [] {
      match ops[0]
      case Add(x) =>
        assert (waiting + [x])[..|waiting|] == waiting;
        SortedListRefinesWaitingRoom(key, waiting + [x], ops[1..]);
      case Serve =>
        if waiting == [] {
          SortedListRefinesWaitingRoom(key, [], ops[1..]);
        } else {
          ServingTheFront(key, waiting);
          SortedListRefinesWaitingRoom(key, Without(waiting, NextToServe(key, waiting)), ops[1..]);
        }
    }
  }

  // ----- Insertions that arrive while the front is in use -----

  lemma {:induction false} InsertBehindFront<T>(key: T -> Deadline, s: seq<T>, x: T)
    requires s != [] && Ordered(key, s)
    ensures !Before(key(x), key(s[0])) ==> Insert(key, s, x) == [s[0]] + Insert(key, s[1..], x)
    ensures Before(key(x), key(s[0])) ==> Insert(key, s, x) == [x] + s
  {
    if |s| == 1 {
      assert s[..0] == [] && s[1..] == [];
    } else {
      var front, last := s[..|s| - 1], s[|s| - 1];
      InsertBehindFront(key, front, x);
      assert front[1..] == s[1..][..|s| - 2];
      if !Before(key(x), key(last)) {
        assert s + [x] == [s[0]] + (s[1..] + [x]);
      } else {
        assert s == front + [last];
      }
    }
  }

  /** Insertions that do not precede the front go behind it: popping the front afterwards leaves
      what inserting into the rest would have left. */
  lemma {:induction false} FrontSurvives<T>(key: T -> Deadline, s: seq<T>, xs: seq<T>)
    requires s != [] && Ordered(key, s)
    requires forall i :: 0 <= i < |xs| ==> !Before(key(xs[i]), key(s[0]))
    ensures InsertAll(key, s, xs) == [s[0]] + InsertAll(key, s[1..], xs)
    decreases |xs|
  {
    if xs == [] {
      assert s == [s[0]] + s[1..];
    } else {
      InsertBehindFront(key, s, xs[0]);
      InsertKeepsOrder(key, s, xs[0]);
      FrontSurvives(key, Insert(key, s, xs[0]), xs[1..]);
    }
  }

  /** One insertion that does precede the front displaces it: the new front is an inserted item
      with an earlier deadline. */
  lemma {:induction false} FrontDisplaced<T>(key: T -> Deadline, s: seq<T>, xs: seq<T>, i: nat)
    requires s != [] && Ordered(key, s)
    requires i < |xs| && Before(key(xs[i]), key(s[0]))
    ensures var r := InsertAll(key, s, xs); r[0] in xs && Before(key(r[0]), key(s[0]))
    decreases |xs|
  {
    var s1 := Insert(key, s, xs[0]);
    InsertBehindFront(key, s, xs[0]);
    InsertKeepsOrder(key, s, xs[0]);
    if exists j :: 1 <= j < |xs| && Before(key(xs[j]), key(s1[0])) {
      var j :| 1 <= j < |xs| && Before(key(xs[j]), key(s1[0]));
      FrontDisplaced(key, s1, xs[1..], j - 1);
    } else {
      forall j | 0 <= j < |xs[1..]| ensures !Before(key(xs[1..][j]), key(s1[0])) {
        assert xs[1..][j] == xs[j + 1];
      }
      FrontSurvives(key, s1, xs[1..]);
    }
  }
}
