/** A pull ingester: a fetch list in deadline order, and a worker that downloads the front item with
    the list unlocked. */
module PullObjectIngester {
  import opened Basics
  import opened StableOrder

  datatype IngestItem = IngestItem(
    objectId: string,
    url: string,
    acquisitionId: string,
    ingestBaseUrl: Option<string>,
    distributionBaseUrl: Option<string>,
    deadline: Deadline)

  /** The metadata of a stored object, as far as its URLs go. Its object id need not be
      the id under which it is stored. */
  datatype StoredObject = StoredObject(
    objectId: string,
    originalUrl: string,
    fetchedUrl: string,
    acquisitionId: string,
    ingestBaseUrl: Option<string>,
    distributionBaseUrl: Option<string>)

  function DeadlineOf(item: IngestItem): Deadline {
    item.deadline
  }

  function Refetch(known: StoredObject, deadline: Deadline): IngestItem {
    IngestItem(known.objectId, known.fetchedUrl, known.acquisitionId, known.ingestBaseUrl, known.distributionBaseUrl, deadline)
  }

  /** What a download is stored as: the URL of a permanent redirect takes the place of the one that
      was asked for. */
  function Downloaded(item: IngestItem, redirectUrl: string): StoredObject {
    StoredObject(item.objectId, item.url, if redirectUrl == "" then item.url else redirectUrl,
                 item.acquisitionId, item.ingestBaseUrl, item.distributionBaseUrl)
  }

  /** The list, the item being downloaded, and the history: everything accepted, and what became of
      the downloads that ended. */
  datatype IngesterState = IngesterState(
    pending: seq<IngestItem>,
    downloading: Option<IngestItem>,
    accepted: seq<IngestItem>,
    stored: seq<IngestItem>,
    failed: seq<IngestItem>)

  function NewIngester(items: seq<IngestItem>): IngesterState {
    IngesterState(StableSort(DeadlineOf, items), None, items, [], [])
  }

  // ----- Fetching -----

  function IndexOf(items: seq<IngestItem>, id: string): (i: nat)
    ensures i <= |items|
    ensures i < |items| ==> items[i].objectId == id
    ensures forall j :: 0 <= j < i ==> items[j].objectId != id
  {
    if items == [] || items[0].objectId == id then 0 else 1 + IndexOf(items[1..], id)
  }

  function Reschedule(items: seq<IngestItem>, i: nat, deadline: Deadline): seq<IngestItem>
    requires i < |items|
  {
    if deadline.None? then items else items[i := items[i].(deadline := deadline)]
  }

  function FetchItem(s: IngesterState, item: IngestItem): IngesterState {
    s.(pending := Insert(DeadlineOf, s.pending, item), accepted := s.accepted + [item])
  }

  /** `fetch` by id; `None` stands for the exception when the object is neither pending nor stored. */
  function FetchId(s: IngesterState, id: string, deadline: Deadline, store: map<string, StoredObject>): Option<IngesterState> {
    var i := IndexOf(s.pending, id);
    if i < |s.pending| then Some(s.(pending := StableSort(DeadlineOf, Reschedule(s.pending, i, deadline))))
    else if id in store then Some(FetchItem(s, Refetch(store[id], deadline)))
    else None
  }

  // ----- Downloading -----

  const NS_PER_MS: int := 1_000_000
  const DEFAULT_TIMEOUT_MS: int := 10_000

  /** `duration_cast` to milliseconds rounds towards zero. */
  function ToMilliseconds(ns: int): int {
    if 0 <= ns then ns / NS_PER_MS else -((-ns) / NS_PER_MS)
  }

  function Timeout(deadline: Deadline, now: int): int {
    if deadline.Some? then ToMilliseconds(deadline.value - now) else DEFAULT_TIMEOUT_MS
  }

  /** The time given to a download never passes its deadline, and a download is attempted exactly
      when at least a millisecond is left. */
  lemma TimeoutRespectsDeadline(deadline: int, now: int)
    ensures var timeout := Timeout(Some(deadline), now);
            && (now <= deadline ==> now + timeout * 1_000_000 <= deadline < now + (timeout + 1) * 1_000_000)
            && (deadline <= now ==> now + (timeout - 1) * 1_000_000 < deadline <= now + timeout * 1_000_000)
            && (timeout > 0 <==> now + 1_000_000 <= deadline)
    ensures Timeout(None, now) == 10_000
  {
  }

  function Begin(s: IngesterState): IngesterState
    requires s.pending != [] && s.downloading.None?
  {
    s.(pending := s.pending[1..], downloading := Some(s.pending[0]))
  }

  function Finish(s: IngesterState, received: bool): IngesterState
    requires s.downloading.Some?
  {
    var item := s.downloading.value;
    if received then s.(downloading := None, stored := s.stored + [item])
    else s.(downloading := None, failed := s.failed + [item])
  }

  // ----- Conservation -----

  /** An item apart from its deadline, which a later fetch may change. */
  function Job(item: IngestItem): IngestItem {
    item.(deadline := None)
  }

  function IsJob(item: IngestItem, job: IngestItem): nat {
    if Job(item) == job then 1 else 0
  }

  /** How often a job occurs in a list. */
  function Count(items: seq<IngestItem>, job: IngestItem): nat {
    if items == [] then 0 else IsJob(items[0], job) + Count(items[1..], job)
  }

  function Current(s: IngesterState): seq<IngestItem> {
    if s.downloading.Some? then [s.downloading.value] else []
  }

  /** Every job accepted is pending, being downloaded, stored or failed, as often as accepted. */
  ghost predicate Conserved(s: IngesterState) {
    && |s.accepted| == |s.pending| + |Current(s)| + |s.stored| + |s.failed|
    && forall job :: Count(s.accepted, job)
                     == Count(s.pending, job) + Count(Current(s), job) + Count(s.stored, job) + Count(s.failed, job)
  }

  ghost predicate IngesterInv(s: IngesterState) {
    Ordered(DeadlineOf, s.pending) && Conserved(s)
  }

  lemma {:induction false} CountAppend(a: seq<IngestItem>, b: seq<IngestItem>, job: IngestItem)
    ensures Count(a + b, job) == Count(a, job) + Count(b, job)
  {
    hide IsJob;
    if a == [] {
      assert a + b == b;
    } else {
      assert (a + b)[1..] == a[1..] + b;
      CountAppend(a[1..], b, job);
    }
  }

  lemma CountSnoc(a: seq<IngestItem>, item: IngestItem, job: IngestItem)
    ensures Count(a + [item], job) == Count(a, job) + IsJob(item, job)
  {
    CountAppend(a, [item], job);
    assert [item][1..] == [];
  }

  lemma {:induction false} CountInsert(items: seq<IngestItem>, item: IngestItem, job: IngestItem)
    ensures Count(Insert(DeadlineOf, items, item), job) == Count(items, job) + IsJob(item, job)
  {
    hide IsJob;
    CountSnoc(items, item, job);
    if items != [] {
      var front, last := items[..|items| - 1], items[|items| - 1];
      CountInsert(front, item, job);
      CountSnoc(Insert(DeadlineOf, front, item), last, job);
      assert items == front + [last];
      CountSnoc(front, last, job);
    }
  }

  lemma {:induction false} CountSort(items: seq<IngestItem>, job: IngestItem)
    ensures Count(StableSort(DeadlineOf, items), job) == Count(items, job)
  {
    hide IsJob;
    if items != [] {
      var front, last := items[..|items| - 1], items[|items| - 1];
      CountSort(front, job);
      CountInsert(StableSort(DeadlineOf, front), last, job);
      assert items == front + [last];
      CountSnoc(front, last, job);
    }
  }

  lemma {:induction false} CountReschedule(items: seq<IngestItem>, i: nat, deadline: Deadline, job: IngestItem)
    requires i < |items|
    ensures Count(Reschedule(items, i, deadline), job) == Count(items, job)
  {
    var changed := Reschedule(items, i, deadline);
    if i == 0 {
      assert changed[1..] == items[1..];
    } else {
      CountReschedule(items[1..], i - 1, deadline, job);
      assert changed[1..] == Reschedule(items[1..], i - 1, deadline);
    }
  }

  /** Fetching an id that is pending adds no entry and changes nothing but the deadline of the first
      entry with that id; everything else is where the order puts it. */
  lemma FetchPendingReschedulesOnly(s: IngesterState, id: string, deadline: Deadline, store: map<string, StoredObject>)
    requires IndexOf(s.pending, id) < |s.pending|
    ensures var i := IndexOf(s.pending, id);
            var r := FetchId(s, id, deadline, store);
            && r.Some? && r.value == s.(pending := r.value.pending)
            && IsStableSortOf(DeadlineOf, r.value.pending, Reschedule(s.pending, i, deadline))
            && multiset(r.value.pending) == multiset(s.pending) - multiset{s.pending[i]}
                 + multiset{if deadline.None? then s.pending[i] else s.pending[i].(deadline := deadline)}
  {
    var i := IndexOf(s.pending, id);
    var changed := Reschedule(s.pending, i, deadline);
    StableSortIsStable(DeadlineOf, changed);
    StableSortElements(DeadlineOf, changed);
  }

  /** An object fetched again by its id is found pending by the next such fetch exactly when its
      metadata carries that id. */
  lemma FetchedIdIsPendingIff(s: IngesterState, id: string, deadline: Deadline, store: map<string, StoredObject>)
    requires IndexOf(s.pending, id) == |s.pending| && id in store
    ensures var t := FetchId(s, id, deadline, store).value;
            (IndexOf(t.pending, id) < |t.pending|) == (store[id].objectId == id)
    ensures var t, known := FetchId(s, id, deadline, store).value, store[id];
            multiset(t.pending) == multiset(s.pending) + multiset{IngestItem(known.objectId, known.fetchedUrl, known.acquisitionId,
                                                                  known.ingestBaseUrl, known.distributionBaseUrl, deadline)}
  {
    var item := Refetch(store[id], deadline);
    var t := FetchItem(s, item);
    InsertElements(DeadlineOf, s.pending, item);
    var i := IndexOf(t.pending, id);
    if i < |t.pending| {
      assert t.pending[i] in multiset(t.pending);
    } else {
      assert item in multiset(t.pending);
    }
  }

  // ----- Runs -----

  datatype IngesterStep =
    | FetchItemStep(item: IngestItem)
    | FetchIdStep(objectId: string, deadline: Deadline, store: map<string, StoredObject>)
    | BeginStep
    | FinishStep(received: bool)

  /** A fetch that throws leaves the ingester as it was. */
  function IngesterNext(s: IngesterState, step: IngesterStep): Option<IngesterState> {
    match step
    case FetchItemStep(item) => Some(FetchItem(s, item))
    case FetchIdStep(id, deadline, store) =>
      var r := FetchId(s, id, deadline, store);
      Some(if r.Some? then r.value else s)
    case BeginStep => if s.pending != [] && s.downloading.None? then Some(Begin(s)) else None
    case FinishStep(received) => if s.downloading.Some? then Some(Finish(s, received)) else None
  }

  lemma FetchItemKeepsInv(s: IngesterState, item: IngestItem)
    requires IngesterInv(s)
    ensures IngesterInv(FetchItem(s, item))
  {
    hide Insert, Count, IsJob;
    InsertKeepsOrder(DeadlineOf, s.pending, item);
    forall job
      ensures Count(FetchItem(s, item).accepted, job)
           == Count(FetchItem(s, item).pending, job) + Count(Current(s), job) + Count(s.stored, job) + Count(s.failed, job)
    {
      CountInsert(s.pending, item, job);
      CountSnoc(s.accepted, item, job);
    }
  }

  lemma RescheduleKeepsInv(s: IngesterState, i: nat, deadline: Deadline)
    requires IngesterInv(s) && i < |s.pending|
    ensures IngesterInv(s.(pending := StableSort(DeadlineOf, Reschedule(s.pending, i, deadline))))
  {
    hide StableSort, Count;
    StableSortIsStable(DeadlineOf, Reschedule(s.pending, i, deadline));
    forall job ensures Count(StableSort(DeadlineOf, Reschedule(s.pending, i, deadline)), job) == Count(s.pending, job) {
      CountSort(Reschedule(s.pending, i, deadline), job);
      CountReschedule(s.pending, i, deadline, job);
    }
  }

  lemma BeginKeepsInv(s: IngesterState)
    requires IngesterInv(s) && s.pending != [] && s.downloading.None?
    ensures IngesterInv(Begin(s))
  {
  }

  lemma FinishKeepsInv(s: IngesterState, received: bool)
    requires IngesterInv(s) && s.downloading.Some?
    ensures IngesterInv(Finish(s, received))
  {
    hide Count, IsJob;
    var item := s.downloading.value;
    forall job
      ensures Count(Finish(s, received).accepted, job)
           == Count(s.pending, job) + Count([], job) + Count(Finish(s, received).stored, job) + Count(Finish(s, received).failed, job)
    {
      CountSnoc(s.stored, item, job);
      CountSnoc(s.failed, item, job);
      CountSnoc([], item, job);
      assert [] + [item] == [item];
      CountNone(job);
    }
  }

  lemma CountNone(job: IngestItem)
    ensures Count([], job) == 0
  {
  }

  lemma InitialIngesterInv(items: seq<IngestItem>)
    ensures IngesterInv(NewIngester(items))
  {
    hide StableSort;
    StableSortIsStable(DeadlineOf, items);
    forall job ensures Count(NewIngester(items).pending, job) == Count(items, job) { CountSort(items, job); }
  }

  lemma IngesterStepKeepsInv(s: IngesterState, step: IngesterStep)
    requires IngesterInv(s) && IngesterNext(s, step).Some?
    ensures IngesterInv(IngesterNext(s, step).value)
  {
    hide IngesterInv;
    match step
    case FetchItemStep(item) => FetchItemKeepsInv(s, item);
    case FetchIdStep(id, deadline, store) =>
      var i := IndexOf(s.pending, id);
      if i < |s.pending| {
        RescheduleKeepsInv(s, i, deadline);
      } else if id in store {
        FetchItemKeepsInv(s, Refetch(store[id], deadline));
      }
    case BeginStep => BeginKeepsInv(s);
    case FinishStep(received) => FinishKeepsInv(s, received);
  }

  predicate IngesterRun(s: IngesterState, steps: seq<IngesterStep>)
    decreases |steps|
  {
    steps == [] || (IngesterNext(s, steps[0]).Some? && IngesterRun(IngesterNext(s, steps[0]).value, steps[1..]))
  }

  function AfterIngesterRun(s: IngesterState, steps: seq<IngesterStep>): IngesterState
    requires IngesterRun(s, steps)
    decreases |steps|
  {
    if steps == [] then s else AfterIngesterRun(IngesterNext(s, steps[0]).value, steps[1..])
  }

  lemma {:induction false} IngesterRunKeepsInv(s: IngesterState, steps: seq<IngesterStep>)
    requires IngesterInv(s) && IngesterRun(s, steps)
    ensures IngesterInv(AfterIngesterRun(s, steps))
    decreases |steps|
  {
    hide IngesterInv, IngesterNext;
    if steps != [] {
      IngesterStepKeepsInv(s, steps[0]);
      IngesterRunKeepsInv(IngesterNext(s, steps[0]).value, steps[1..]);
    }
  }

  /** Whatever fetches come in while the worker downloads, every item accepted is pending, being
      downloaded, stored or failed, and the worker's next item has a minimal deadline. */
  lemma NothingIsLostOrOvertaken(items: seq<IngestItem>, steps: seq<IngesterStep>)
    requires IngesterRun(NewIngester(items), steps)
    ensures var s := AfterIngesterRun(NewIngester(items), steps);
            && |s.accepted| == |s.pending| + |Current(s)| + |s.stored| + |s.failed|
            && (forall job :: Count(s.accepted, job)
                   == Count(s.pending, job) + Count(Current(s), job) + Count(s.stored, job) + Count(s.failed, job))
            && (s.pending != [] ==> forall i :: 0 <= i < |s.pending| ==> !Before(s.pending[i].deadline, s.pending[0].deadline))
  {
    hide NewIngester, Count;
    InitialIngesterInv(items);
    IngesterRunKeepsInv(NewIngester(items), steps);
  }

  // ----- The object -----

  /** What a download came to: bytes, a time-out, or another error. */
  datatype Response = Received | TimedOut | Error

  class PullObjectIngester {
    var fetchList: seq<IngestItem>
    var current: Option<IngestItem>
    ghost var accepted: seq<IngestItem>
    ghost var stored: seq<IngestItem>
    ghost var failed: seq<IngestItem>

    ghost function State(): IngesterState
      reads this
    {
      IngesterState(fetchList, current, accepted, stored, failed)
    }

    ghost predicate Valid()
      reads this
    {
      IngesterInv(State())
    }

    constructor (items: seq<IngestItem>)
      ensures State() == NewIngester(items) && Valid()
      ensures IsStableSortOf(DeadlineOf, fetchList, items) && current.None?
    {
      fetchList, current, accepted, stored, failed := StableSort(DeadlineOf, items), None, items, [], [];
      new;
      InitialIngesterInv(items);
      StableSortIsStable(DeadlineOf, items);
    }

    method SortListByPolicy()
      modifies this`fetchList
      ensures fetchList == StableSort(DeadlineOf, old(fetchList))
    {
      fetchList := StableSort(DeadlineOf, fetchList);
    }

    method Fetch(item: IngestItem)
      requires Valid()
      modifies this
      ensures Valid() && State() == FetchItem(old(State()), item)
      ensures IsStableSortOf(DeadlineOf, fetchList, old(fetchList) + [item])
      ensures multiset(fetchList) == multiset(old(fetchList)) + multiset{item}
    {
      hide IngesterInv, IsStableSortOf, Class;
      FetchItemKeepsInv(State(), item);
      ValidMeansSorted(State());
      fetchList := fetchList + [item];
      assert fetchList[..|fetchList| - 1] == old(fetchList);
      StableSortIsStable(DeadlineOf, fetchList);
      StableSortElements(DeadlineOf, fetchList);
      SortListByPolicy();
      accepted := accepted + [item];
    }

    /** `fetch` by id, with the store's answer for an id that is not pending. */
    method FetchById(id: string, deadline: Deadline, store: map<string, StoredObject>) returns (ok: bool)
      requires Valid()
      modifies this
      ensures Valid()
      ensures ok == FetchId(old(State()), id, deadline, store).Some?
      ensures State() == if ok then FetchId(old(State()), id, deadline, store).value else old(State())
    {
      hide IngesterInv;
      var i := 0;
      while i < |fetchList| && fetchList[i].objectId != id
        invariant 0 <= i <= |fetchList|
        invariant forall j :: 0 <= j < i ==> fetchList[j].objectId != id
      {
        i := i + 1;
      }
      assert i == IndexOf(fetchList, id);
      if i < |fetchList| {
        RescheduleKeepsInv(State(), i, deadline);
        if deadline.Some? {
          fetchList := fetchList[i := fetchList[i].(deadline := deadline)];
        }
        SortListByPolicy();
        return true;
      }
      if id !in store { return false; }
      Fetch(Refetch(store[id], deadline));
      return true;
    }

    /** The first half of `doObjectIngest`: take the front item and work out how long its download
        may take. */
    method BeginDownload(now: int) returns (timeout: int)
      requires Valid() && fetchList != [] && current.None?
      modifies this
      ensures Valid() && State() == Begin(old(State()))
      ensures timeout == Timeout(old(fetchList)[0].deadline, now)
      ensures current == Some(old(fetchList)[0]) && fetchList == old(fetchList)[1..]
      ensures forall i :: 0 <= i < |old(fetchList)| ==> !Before(old(fetchList)[i].deadline, current.value.deadline)
    {
      BeginKeepsInv(State());
      hide Conserved;
      current := Some(fetchList[0]);
      fetchList := fetchList[1..];
      timeout := if current.value.deadline.Some? then ToMilliseconds(current.value.deadline.value - now) else DEFAULT_TIMEOUT_MS;
    }

    /** The second half: nothing is requested when no time is left, which counts as a time-out.
        What is received goes to the store, with the redirect URL that the headers left. */
    method EndDownload(timeout: int, response: Response, redirectUrl: string) returns (added: Option<StoredObject>)
      requires Valid() && current.Some?
      modifies this
      ensures Valid() && State() == Finish(old(State()), timeout > 0 && response.Received?)
      ensures added.Some? <==> timeout > 0 && response.Received?
      ensures added.Some? ==> added.value == Downloaded(old(current).value, redirectUrl)
      ensures var item := old(current).value;
              && (added.Some? ==>
                    && added.value.objectId == item.objectId && added.value.acquisitionId == item.acquisitionId
                    && added.value.originalUrl == item.url
                    && added.value.fetchedUrl == (if redirectUrl == "" then item.url else redirectUrl)
                    && added.value.ingestBaseUrl == item.ingestBaseUrl
                    && added.value.distributionBaseUrl == item.distributionBaseUrl
                    && stored == old(stored) + [item] && failed == old(failed))
              && (added.None? ==> failed == old(failed) + [item] && stored == old(stored))
              && current.None? && fetchList == old(fetchList)
    {
      FinishKeepsInv(State(), timeout > 0 && response.Received?);
      hide IngesterInv;
      if timeout > 0 && response.Received? {
        stored := stored + [current.value];
        var item := current.value;
        var fetchedUrl := redirectUrl;
        if fetchedUrl == "" { fetchedUrl := item.url; }
        added := Some(StoredObject(item.objectId, item.url, fetchedUrl, item.acquisitionId,
                                   item.ingestBaseUrl, item.distributionBaseUrl));
      } else {
        added := None;
        failed := failed + [current.value];
      }
      current := None;
    }
  }

  lemma ValidMeansSorted(s: IngesterState)
    requires IngesterInv(s)
    ensures StableSort(DeadlineOf, s.pending) == s.pending
  {
    SortedListIsItsOwnSort(DeadlineOf, s.pending);
  }
}
