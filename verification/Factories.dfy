/** The registries of controller and manifest handler constructors: priority lists kept by
    insertion at the lower bound, and the search for the first constructor that accepts. */
module Factories {
  import opened Basics
  import opened StableOrder

  datatype Constructor = Constructor(id: nat, priority: nat)

  /** What a constructor does with a session or an object: it makes something, it recognises its
      argument but fails on it, or it declines with any other exception. */
  datatype Answer = Made(product: nat) | RuntimeError(what: string) | Declined

  // ----- Registration -----

  /** The comparator of the lower bound search: higher priorities first. */
  predicate ComesBefore(a: Constructor, b: Constructor) {
    a.priority > b.priority
  }

  function Rank(c: Constructor): Deadline {
    Some(-(c.priority as int))
  }

  /** In front of the first constructor that `c` equals or beats. */
  function Placed(list: seq<Constructor>, c: Constructor): seq<Constructor> {
    if list == [] || !ComesBefore(list[0], c) then [c] + list else [list[0]] + Placed(list[1..], c)
  }

  function Registered(registrations: seq<Constructor>): seq<Constructor> {
    if registrations == [] then []
    else Placed(Registered(registrations[..|registrations| - 1]), registrations[|registrations| - 1])
  }

  function Reversed(s: seq<Constructor>): seq<Constructor> {
    if s == [] then [] else [s[|s| - 1]] + Reversed(s[..|s| - 1])
  }

  lemma {:induction false} PlacedAt(list: seq<Constructor>, c: Constructor, i: nat)
    requires i <= |list|
    requires forall j :: 0 <= j < i ==> ComesBefore(list[j], c)
    requires i < |list| ==> !ComesBefore(list[i], c)
    ensures Placed(list, c) == list[..i] + [c] + list[i..]
  {
    if i > 0 {
      PlacedAt(list[1..], c, i - 1);
      assert list[..i] == [list[0]] + list[1..][..i - 1] && list[i..] == list[1..][i - 1..];
    }
  }

  lemma PlacedElements(list: seq<Constructor>, c: Constructor)
    ensures multiset(Placed(list, c)) == multiset(list) + multiset{c}
  {
    if list != [] && ComesBefore(list[0], c) {
      PlacedElements(list[1..], c);
      assert list == [list[0]] + list[1..];
    }
  }

  lemma {:induction false} PlacedKeepsOrder(list: seq<Constructor>, c: Constructor)
    requires Ordered(Rank, list)
    ensures Ordered(Rank, Placed(list, c))
  {
    if list == [] {
    } else if !ComesBefore(list[0], c) {
      forall j | 0 <= j < |list| ensures !Before(Rank(list[j]), Rank(c)) {
        assert j > 0 ==> !Before(Rank(list[j]), Rank(list[0]));
      }
    } else {
      PlacedKeepsOrder(list[1..], c);
      PlacedElements(list[1..], c);
      var rest := Placed(list[1..], c);
      forall j | 0 <= j < |rest| ensures !Before(Rank(rest[j]), Rank(list[0])) {
        assert rest[j] in multiset(rest);
      }
    }
  }

  lemma {:induction false} PlacedClass(list: seq<Constructor>, c: Constructor, d: Deadline)
    requires Ordered(Rank, list)
    ensures Class(Rank, Placed(list, c), d) == IfKey(Rank, c, d) + Class(Rank, list, d)
  {
    if list != [] && ComesBefore(list[0], c) {
      PlacedClass(list[1..], c, d);
      assert ([list[0]] + Placed(list[1..], c))[1..] == Placed(list[1..], c);
    } else {
      assert ([c] + list)[1..] == list;
    }
  }

  /** After any registrations the list holds every constructor once, in order of falling priority,
      the latest registration first among equals. */
  lemma {:induction false} RegistryIsSortedNewestFirst(registrations: seq<Constructor>)
    ensures multiset(Registered(registrations)) == multiset(registrations)
    ensures forall i, j :: 0 <= i < j < |Registered(registrations)| ==>
              Registered(registrations)[i].priority >= Registered(registrations)[j].priority
    ensures IsStableSortOf(Rank, Registered(registrations), Reversed(registrations))
  {
    if registrations != [] {
      var earlier, c := registrations[..|registrations| - 1], registrations[|registrations| - 1];
      RegistryIsSortedNewestFirst(earlier);
      assert registrations == earlier + [c];
      PlacedElements(Registered(earlier), c);
      PlacedKeepsOrder(Registered(earlier), c);
      forall d ensures Class(Rank, Registered(registrations), d) == Class(Rank, Reversed(registrations), d) {
        PlacedClass(Registered(earlier), c, d);
        assert ([c] + Reversed(earlier))[1..] == Reversed(earlier);
      }
      FallingPriorities(Registered(registrations));
    }
  }

  lemma FallingPriorities(list: seq<Constructor>)
    requires Ordered(Rank, list)
    ensures forall i, j :: 0 <= i < j < |list| ==> list[i].priority >= list[j].priority
  {
  }

  /** `std::lower_bound`: halve the range until one position is left. */
  method LowerBound(list: seq<Constructor>, c: Constructor) returns (first: nat)
    requires Ordered(Rank, list)
    ensures first <= |list|
    ensures forall j :: 0 <= j < |list| ==> (ComesBefore(list[j], c) <==> j < first)
  {
    FallingPriorities(list);
    first := 0;
    var count: nat := |list|;
    while count > 0
      invariant first + count <= |list|
      invariant forall j :: 0 <= j < first ==> ComesBefore(list[j], c)
      invariant forall j :: first + count <= j < |list| ==> !ComesBefore(list[j], c)
    {
      var step := count / 2;
      if ComesBefore(list[first + step], c) {
        first := first + step + 1;
        count := count - step - 1;
      } else {
        count := step;
      }
    }
  }

  /** `list.insert(lower_bound(...), c)`, on the list kept for these registrations. */
  method InsertByPriority(list: seq<Constructor>, c: Constructor, ghost registrations: seq<Constructor>) returns (r: seq<Constructor>)
    requires list == Registered(registrations)
    ensures r == Registered(registrations + [c])
  {
    RegistryIsSortedNewestFirst(registrations);
    var i := LowerBound(list, c);
    PlacedAt(list, c, i);
    assert (registrations + [c])[..|registrations|] == registrations;
    r := list[..i] + [c] + list[i..];
  }

  // ----- Selection -----

  /** The first constructor of a list that does not decline. */
  function FirstAnswering(list: seq<Constructor>, answer: Constructor -> Answer): Option<Constructor> {
    if list == [] then None
    else if answer(list[0]).Declined? then FirstAnswering(list[1..], answer)
    else Some(list[0])
  }

  /** The reference, which knows of no list: of the constructors that do not decline, the one of
      the highest priority, and of those the last to have been registered. */
  function Champion(registrations: seq<Constructor>, answer: Constructor -> Answer): Option<Constructor> {
    if registrations == [] then None
    else
      var c := registrations[|registrations| - 1];
      var best := Champion(registrations[..|registrations| - 1], answer);
      if !answer(c).Declined? && (best.None? || best.value.priority <= c.priority) then Some(c) else best
  }

  ghost predicate IsBest(registrations: seq<Constructor>, answer: Constructor -> Answer, i: int) {
    && 0 <= i < |registrations| && !answer(registrations[i]).Declined?
    && forall j :: 0 <= j < |registrations| && !answer(registrations[j]).Declined? ==>
         registrations[j].priority < registrations[i].priority
         || (registrations[j].priority == registrations[i].priority && j <= i)
  }

  lemma {:induction false} ChampionIsBest(registrations: seq<Constructor>, answer: Constructor -> Answer)
    ensures Champion(registrations, answer).None? <==> forall c :: c in registrations ==> answer(c).Declined?
    ensures Champion(registrations, answer).Some? ==>
              exists i :: IsBest(registrations, answer, i) && registrations[i] == Champion(registrations, answer).value
  {
    if registrations != [] {
      var n := |registrations| - 1;
      var earlier, c := registrations[..n], registrations[n];
      ChampionIsBest(earlier, answer);
      assert registrations == earlier + [c];
      var best := Champion(earlier, answer);
      if !answer(c).Declined? && (best.None? || best.value.priority <= c.priority) {
        assert IsBest(registrations, answer, n);
      } else if best.Some? {
        var i :| IsBest(earlier, answer, i) && earlier[i] == best.value;
        assert IsBest(registrations, answer, i);
      }
    }
  }

  lemma {:induction false} FirstAnsweringIsMember(list: seq<Constructor>, answer: Constructor -> Answer)
    requires FirstAnswering(list, answer).Some?
    ensures FirstAnswering(list, answer).value in list && !answer(FirstAnswering(list, answer).value).Declined?
  {
    if answer(list[0]).Declined? {
      FirstAnsweringIsMember(list[1..], answer);
    }
  }

  lemma {:induction false} PlacingChallengesTheChampion(list: seq<Constructor>, c: Constructor, answer: Constructor -> Answer)
    requires Ordered(Rank, list)
    ensures var best := FirstAnswering(list, answer);
            FirstAnswering(Placed(list, c), answer)
            == if !answer(c).Declined? && (best.None? || best.value.priority <= c.priority) then Some(c) else best
  {
    var best := FirstAnswering(list, answer);
    if best.Some? {
      FirstAnsweringIsMember(list, answer);
      FallingPriorities(list);
    }
    if list == [] || !ComesBefore(list[0], c) {
      assert ([c] + list)[1..] == list;
    } else {
      PlacingChallengesTheChampion(list[1..], c, answer);
      assert ([list[0]] + Placed(list[1..], c))[1..] == Placed(list[1..], c);
    }
  }

  /** Searching the list finds the champion. */
  lemma {:induction false} SearchFindsTheChampion(registrations: seq<Constructor>, answer: Constructor -> Answer)
    ensures FirstAnswering(Registered(registrations), answer) == Champion(registrations, answer)
  {
    if registrations != [] {
      var earlier, c := registrations[..|registrations| - 1], registrations[|registrations| - 1];
      SearchFindsTheChampion(earlier, answer);
      RegistryIsSortedNewestFirst(earlier);
      PlacingChallengesTheChampion(Registered(earlier), c, answer);
    }
  }

  /** `None` is the null pointer that stands for "nobody could". */
  function AnswerOf(c: Option<Constructor>, answer: Constructor -> Answer): Option<Answer> {
    if c.None? then None else Some(answer(c.value))
  }

  /** The loop over one list: it ends at the first constructor that does not decline, whether that
      one delivers or fails. */
  method Search(list: seq<Constructor>, answer: Constructor -> Answer) returns (r: Option<Answer>)
    ensures r == AnswerOf(FirstAnswering(list, answer), answer)
    ensures r.None? <==> forall j :: 0 <= j < |list| ==> answer(list[j]).Declined?
  {
    for k := 0 to |list|
      invariant FirstAnswering(list[k..], answer) == FirstAnswering(list, answer)
      invariant forall j :: 0 <= j < k ==> answer(list[j]).Declined?
    {
      assert list[k..][1..] == list[k + 1..];
      if !answer(list[k]).Declined? {
        return Some(answer(list[k]));
      }
    }
    r := None;
  }

  class ControllerFactory {
    var constructors: seq<Constructor>
    ghost var registrations: seq<Constructor>

    ghost predicate Valid()
      reads this
    {
      constructors == Registered(registrations)
    }

    constructor ()
      ensures Valid() && registrations == []
    {
      constructors, registrations := [], [];
    }

    method RegisterController(c: Constructor)
      requires Valid()
      modifies this
      ensures Valid() && registrations == old(registrations) + [c]
    {
      constructors := InsertByPriority(constructors, c, registrations);
      registrations := registrations + [c];
    }

    /** The session goes to the champion. */
    method MakeController(answer: Constructor -> Answer) returns (r: Option<Answer>)
      requires Valid()
      ensures r == AnswerOf(Champion(registrations, answer), answer)
      ensures var c := Champion(registrations, answer); r == if c.None? then None else Some(answer(c.value))
    {
      SearchFindsTheChampion(registrations, answer);
      r := Search(constructors, answer);
    }
  }

  function RegisteredFor(registrations: map<string, seq<Constructor>>, mediaType: string): seq<Constructor> {
    if mediaType in registrations then registrations[mediaType] else []
  }

  /** The champion of the media type, or failing that the champion of the fallback type "". */
  function ChampionFor(registrations: map<string, seq<Constructor>>, mediaType: string, answer: Constructor -> Answer)
    : Option<Constructor>
  {
    var specific := Champion(RegisteredFor(registrations, mediaType), answer);
    if specific.Some? then specific else Champion(RegisteredFor(registrations, ""), answer)
  }

  class ManifestHandlerFactory {
    var constructorsByContentType: map<string, seq<Constructor>>
    ghost var registrations: map<string, seq<Constructor>>

    ghost predicate Valid()
      reads this
    {
      && constructorsByContentType.Keys == registrations.Keys
      && forall t :: t in registrations ==> constructorsByContentType[t] == Registered(registrations[t])
    }

    constructor ()
      ensures Valid() && registrations == map[]
    {
      constructorsByContentType, registrations := map[], map[];
    }

    method RegisterManifestHandler(contentType: string, c: Constructor)
      requires Valid()
      modifies this
      ensures Valid()
      ensures registrations == old(registrations)[contentType := RegisteredFor(old(registrations), contentType) + [c]]
    {
      var list := if contentType in constructorsByContentType then constructorsByContentType[contentType] else [];
      list := InsertByPriority(list, c, RegisteredFor(registrations, contentType));
      constructorsByContentType := constructorsByContentType[contentType := list];
      registrations := registrations[contentType := RegisteredFor(registrations, contentType) + [c]];
    }

    /** The search takes one round for the media type and at most one more for the fallback. */
    method MakeManifestHandler(objectMediaType: string, answer: Constructor -> Answer)
      returns (r: Option<Answer>, ghost rounds: nat)
      requires Valid()
      ensures r == AnswerOf(ChampionFor(registrations, objectMediaType, answer), answer)
      ensures var specific, fallback := Champion(RegisteredFor(registrations, objectMediaType), answer),
                                        Champion(RegisteredFor(registrations, ""), answer);
              r == if specific.Some? then Some(answer(specific.value))
                   else if fallback.Some? then Some(answer(fallback.value))
                   else None
      ensures rounds == if objectMediaType != "" && Champion(RegisteredFor(registrations, objectMediaType), answer).None? then 2 else 1
    {
      var mediaType := objectMediaType;
      rounds := 0;
      while true
        invariant if rounds == 0 then mediaType == objectMediaType
                  else rounds == 1 && mediaType == "" != objectMediaType
                       && Champion(RegisteredFor(registrations, objectMediaType), answer).None?
        decreases |mediaType|
      {
        rounds := rounds + 1;
        SearchFindsTheChampion(RegisteredFor(registrations, mediaType), answer);
        if mediaType in constructorsByContentType {
          r := Search(constructorsByContentType[mediaType], answer);
          if r.Some? { return; }
        }
        if mediaType == "" { break; }
        mediaType := "";
      }
      r := None;
    }
  }
}
