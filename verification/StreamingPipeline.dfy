/** The delivery pipeline of a STREAMING session as a transition system: object store, its event
    thread, the controller, the packager with its worker and event threads, and the transmitter.
    A step is what one thread does from taking a lock until it takes the next one. */
module StreamingPipeline {
  import opened Basics
  import opened StableOrder
  import opened ObjectListPackager

  /** Where an object came from. */
  datatype Origin = Origin(originalUrl: string, fetchedUrl: string, ingestBase: Option<string>, distributionBase: Option<string>)

  datatype Metadata = Metadata(origin: Origin, keepAfterSend: bool)

  datatype StoreEvent = ObjectAdded(objectId: string) | ObjectDeleted(objectId: string)

  /** The event that the store's thread delivers. For an added object, the handler first looks it up
      and compares its URLs, and later acts on the outcome. */
  datatype Delivery = Delivering(event: StoreEvent) | Checked(objectId: string, isManifest: bool)

  /** `deleting`: the completion being delivered has found its object unmarked, and the deletion
      follows. */
  datatype System = System(
    objects: map<string, Metadata>,
    storeEvents: seq<StoreEvent>,
    storeDispatching: Option<Delivery>,
    packager: Option<PackagerState>,
    deleting: bool,
    subscribed: bool,
    hasHandler: bool,
    manifestUrl: string,
    hasDestination: bool)

  /** A controller just constructed: empty store, packager created and subscribed to. */
  function Initial(manifestUrl: string, hasDestination: bool): System {
    System(map[], [], None, Some(NewPackager([])), false, true, false, manifestUrl, hasDestination)
  }

  /** What the manifest handler or the handler factory makes of a manifest object. */
  datatype Verdict = Understood(handlerMade: bool) | Rejected

  datatype Step =
    | Ingest(objectId: string, origin: Origin)
    | TakeStoreEvent
    | CheckObject
    | HandleStoreEvent(verdict: Verdict)
    | SelectObject
    | SendObject(toi: nat)
    | PopObject
    | TransmitterCompletes(toi: nat)
    | TakeCompletion
    | HandleCompletion
    | DeleteCompleted

  /** `LookupFailed` is a `m_store.at` that throws. */
  datatype Outcome = Moved(next: System) | Blocked | LookupFailed

  /** By either URL: the one asked for or the one a permanent redirect led to. */
  predicate HasManifestUrl(s: System, origin: Origin) {
    origin.originalUrl == s.manifestUrl || origin.fetchedUrl == s.manifestUrl
  }

  predicate IsManifest(s: System, id: string)
    requires id in s.objects
  {
    HasManifestUrl(s, s.objects[id].origin)
  }

  function Store(s: System, id: string, origin: Origin): System {
    s.(objects := s.objects[id := Metadata(origin, false)],
       storeEvents := s.storeEvents + [ObjectAdded(id)])
  }

  function Keep(s: System, id: string): System
    requires id in s.objects
  {
    s.(objects := s.objects[id := s.objects[id].(keepAfterSend := true)])
  }

  /** Queue an object without a deadline; a packager made here is not subscribed to. */
  function PackageObject(s: System, id: string): System {
    var item := PackageItem(id, None);
    if s.packager.Some? then s.(packager := Some(AddItem(s.packager.value, item)))
    else s.(packager := Some(AddItem(NewPackager([]), item)), subscribed := false)
  }

  /** Both packager threads can be joined. */
  predicate Joinable(s: System) {
    s.packager.Some? ==> s.packager.value.phase.Idle? && s.packager.value.dispatching.None?
  }

  /** Look the object up, and mark it to be kept if it is the manifest. */
  function ObjectChecked(s: System, id: string): Outcome {
    if id !in s.objects then LookupFailed
    else
      var t := if IsManifest(s, id) then Keep(s, id) else s;
      Moved(t.(storeDispatching := Some(Checked(id, IsManifest(s, id)))))
  }

  /** Queue the object, for a manifest after another lookup and with the consent of its handler. */
  function AddedHandled(s: System, id: string, isManifest: bool, verdict: Verdict): Outcome {
    var done := s.(storeDispatching := None);
    if !isManifest then Moved(PackageObject(done, id))
    else if id !in s.objects then LookupFailed
    else if verdict.Rejected? && s.hasHandler then
      if Joinable(s) then Moved(done.(packager := None, subscribed := false)) else Blocked
    else if verdict.Rejected? then Moved(done)
    else Moved(PackageObject(done.(hasHandler := s.hasHandler || verdict.handlerMade), id))
  }

  /** Look the completed object up; if it is not marked, its deletion follows. */
  function CompletionHandled(s: System, p: PackagerState): Outcome
    requires p.dispatching.Some?
  {
    var id := p.dispatching.value;
    var done := s.(packager := Some(EndDispatch(p)));
    if !s.subscribed then Moved(done)
    else if id !in s.objects then LookupFailed
    else if s.objects[id].keepAfterSend then Moved(done)
    else Moved(s.(deleting := true))
  }

  function CompletedDeleted(s: System, p: PackagerState): System
    requires p.dispatching.Some?
  {
    var id := p.dispatching.value;
    s.(packager := Some(EndDispatch(p)), deleting := false,
       objects := s.objects - {id}, storeEvents := s.storeEvents + [ObjectDeleted(id)])
  }

  function EventTaken(s: System): System
    requires s.storeEvents != []
  {
    s.(storeDispatching := Some(Delivering(s.storeEvents[0])), storeEvents := s.storeEvents[1..])
  }

  function Next(s: System, step: Step): Outcome {
    match step
    case Ingest(id, origin) => Moved(Store(s, id, origin))
    case TakeStoreEvent =>
      if s.storeDispatching.None? && s.storeEvents != [] then
        Moved(EventTaken(s))
      else Blocked
    case CheckObject =>
      if s.storeDispatching.Some? && s.storeDispatching.value.Delivering? && s.storeDispatching.value.event.ObjectAdded? then
        ObjectChecked(s, s.storeDispatching.value.event.objectId)
      else Blocked
    case HandleStoreEvent(verdict) =>
      if s.storeDispatching.None? then Blocked
      else if s.storeDispatching.value.Checked? then
        AddedHandled(s, s.storeDispatching.value.objectId, s.storeDispatching.value.isManifest, verdict)
      else if s.storeDispatching.value.event.ObjectDeleted? then Moved(s.(storeDispatching := None))
      else Blocked
    case _ =>
      if s.packager.None? then Blocked else PackagerThreads(s, s.packager.value, step)
  }

  function PackagerThreads(s: System, p: PackagerState, step: Step): Outcome {
    match step
    case SelectObject =>
      if s.hasDestination && CanSelect(p) then Moved(s.(packager := Some(SelectFront(p)))) else Blocked
    case SendObject(toi) =>
      if !p.phase.Selected? then Blocked
      else if p.phase.item.objectId !in s.objects then LookupFailed
      else Moved(s.(packager := Some(Transmit(p, toi))))
    case PopObject =>
      if p.phase.Sent? && p.items != [] then Moved(s.(packager := Some(PopFront(p)))) else Blocked
    case TransmitterCompletes(toi) =>
      if p.phase.Idle? then Moved(s.(packager := Some(Complete(p, toi)))) else Blocked
    case TakeCompletion =>
      if p.events != [] && p.dispatching.None? then Moved(s.(packager := Some(BeginDispatch(p)))) else Blocked
    case HandleCompletion =>
      if p.dispatching.Some? && !s.deleting then CompletionHandled(s, p) else Blocked
    case DeleteCompleted =>
      if p.dispatching.Some? && s.deleting then Moved(CompletedDeleted(s, p)) else Blocked
    case _ => Blocked
  }

  /** The handler or the factory refuses the manifest that the store's thread has checked. */
  predicate Refuses(s: System, step: Step) {
    && step.HandleStoreEvent? && step.verdict.Rejected?
    && s.storeDispatching.Some? && s.storeDispatching.value.Checked? && s.storeDispatching.value.isManifest
    && s.storeDispatching.value.objectId in s.objects
  }

  /** A refused update of a known manifest: the packager is dropped. */
  predicate Drops(s: System, step: Step) {
    Refuses(s, step) && s.hasHandler
  }

  // ----- Where an object can be -----

  function AddedId(event: StoreEvent): seq<string> {
    if event.ObjectAdded? then [event.objectId] else []
  }

  function AddedIds(events: seq<StoreEvent>): seq<string> {
    if events == [] then [] else AddedId(events[0]) + AddedIds(events[1..])
  }

  function AddedInSlot(slot: Option<Delivery>): seq<string> {
    if slot.None? then []
    else if slot.value.Checked? then [slot.value.objectId]
    else AddedId(slot.value.event)
  }

  function Slot<T>(slot: Option<T>): seq<T> {
    if slot.Some? then [slot.value] else []
  }

  function ItemIds(items: seq<PackageItem>): seq<string> {
    seq(|items|, i requires 0 <= i < |items| => items[i].objectId)
  }

  /** In flight and no longer in the list. */
  function Airborne(p: PackagerState): seq<string> {
    if p.queued && p.phase.Idle? then [p.queuedObjectId] else []
  }

  function PackagerPlaces(p: PackagerState): multiset<string> {
    multiset(ItemIds(p.items)) + multiset(Airborne(p)) + multiset(p.events) + multiset(Slot(p.dispatching))
  }

  function StorePlaces(s: System): multiset<string> {
    multiset(AddedIds(s.storeEvents)) + multiset(AddedInSlot(s.storeDispatching))
  }

  /** Every occurrence of an object id in the pipeline, with its multiplicity. */
  function Places(s: System): multiset<string> {
    StorePlaces(s) + if s.packager.Some? then PackagerPlaces(s.packager.value) else multiset{}
  }

  ghost predicate PackagerOk(p: PackagerState) {
    && PackagerInv(p)
    && (forall i :: 0 <= i < |p.items| ==> p.items[i].deadline.None?)
    && (!p.phase.Idle? ==> p.items[0] == p.phase.item)
  }

  /** No id occurs twice, and every id that occurs is stored. */
  ghost predicate PlacedOnce(places: multiset<string>, stored: set<string>) {
    forall id :: id in places ==> places[id] == 1 && id in stored
  }

  ghost predicate Placed(s: System) {
    && (s.packager.Some? ==> PackagerOk(s.packager.value))
    && PlacedOnce(Places(s), s.objects.Keys)
  }

  /** What the two handlers found out still holds: a checked object was compared right, and marked if
      it is the manifest; an object about to be deleted is not marked. */
  ghost predicate HandlersOk(s: System) {
    && (s.storeDispatching.Some? && s.storeDispatching.value.Checked? && s.storeDispatching.value.objectId in s.objects ==>
          var id := s.storeDispatching.value.objectId;
          s.storeDispatching.value.isManifest == IsManifest(s, id) && (IsManifest(s, id) ==> s.objects[id].keepAfterSend))
    && (s.deleting ==>
          && s.subscribed && s.packager.Some? && s.packager.value.dispatching.Some?
          && var id := s.packager.value.dispatching.value; id in s.objects && !s.objects[id].keepAfterSend)
  }

  ghost predicate Inv(s: System) {
    Placed(s) && HandlersOk(s)
  }

  lemma InvMeansPackagerOk(s: System)
    requires Inv(s)
    ensures s.packager.Some? ==> PackagerOk(s.packager.value)
  {
  }

  /** The assumptions on the environment: an object is stored under an id that is not outstanding
      (a fresh id, or one whose object has come to rest), and a TOI is reported once. */
  predicate Admissible(s: System, step: Step) {
    match step
    case Ingest(id, _) => id !in Places(s)
    case TransmitterCompletes(toi) => s.packager.Some? ==> CompletedOnce(s.packager.value, CompleteStep(toi))
    case _ => true
  }

  lemma {:induction false} AddedIdsAppend(events: seq<StoreEvent>, e: StoreEvent)
    ensures AddedIds(events + [e]) == AddedIds(events) + AddedId(e)
  {
    hide AddedId;
    if events == [] {
      assert events + [e] == [e] && [e][1..] == [];
      assert AddedIds([]) == [];
    } else {
      var head, tail := events[0], events[1..];
      AddedIdsAppend(tail, e);
      assert (events + [e])[1..] == tail + [e];
      assert AddedId(head) + (AddedIds(tail) + AddedId(e)) == (AddedId(head) + AddedIds(tail)) + AddedId(e);
    }
  }

  lemma ItemIdsAppend(items: seq<PackageItem>, item: PackageItem)
    ensures ItemIds(items + [item]) == ItemIds(items) + [item.objectId]
  {
  }

  lemma HeadAndTail<T>(s: seq<T>)
    requires s != []
    ensures multiset(s) == multiset{s[0]} + multiset(s[1..])
  {
    assert s == [s[0]] + s[1..];
  }

  lemma PopItemIds(items: seq<PackageItem>)
    requires items != []
    ensures multiset(ItemIds(items)) == multiset{items[0].objectId} + multiset(ItemIds(items[1..]))
  {
    assert ItemIds(items) == [items[0].objectId] + ItemIds(items[1..]);
  }

  // ----- What each step does to the places -----

  lemma AddItemIsPushBack(p: PackagerState, id: string)
    requires PackagerOk(p)
    ensures var q := AddItem(p, PackageItem(id, None));
            && PackagerOk(q)
            && q.items == p.items + [PackageItem(id, None)]
            && PackagerPlaces(q) == PackagerPlaces(p) + multiset{id}
  {
    InsertKeepsOrder(DeadlineOf, p.items, PackageItem(id, None));
    ItemIdsAppend(p.items, PackageItem(id, None));
  }

  lemma PackageObjectPlaces(s: System, id: string)
    requires s.packager.Some? ==> PackagerOk(s.packager.value)
    ensures var t := PackageObject(s, id);
            && t.objects == s.objects
            && PackagerOk(t.packager.value)
            && Places(t) == Places(s) + multiset{id}
  {
    if s.packager.Some? {
      AddItemIsPushBack(s.packager.value, id);
    } else {
      AddItemIsPushBack(NewPackager([]), id);
      assert PackagerPlaces(NewPackager([])) == multiset{};
    }
  }

  lemma PopPlaces(p: PackagerState)
    requires PackagerOk(p) && p.phase.Sent?
    ensures PackagerOk(PopFront(p)) && PackagerPlaces(PopFront(p)) == PackagerPlaces(p)
  {
    PopItemIds(p.items);
    var q := PopFront(p);
    assert Ordered(DeadlineOf, q.items);
    assert multiset(Airborne(q)) == multiset{p.items[0].objectId};
  }

  lemma CompletePlaces(p: PackagerState, toi: nat)
    requires PackagerOk(p) && p.phase.Idle? && CompletedOnce(p, CompleteStep(toi))
    ensures PackagerOk(Complete(p, toi)) && PackagerPlaces(Complete(p, toi)) == PackagerPlaces(p)
  {
  }

  lemma BeginDispatchPlaces(p: PackagerState)
    requires PackagerOk(p) && p.events != [] && p.dispatching.None?
    ensures PackagerOk(BeginDispatch(p)) && PackagerPlaces(BeginDispatch(p)) == PackagerPlaces(p)
  {
    HeadAndTail(p.events);
  }

  lemma SelectAndTransmitPlaces(p: PackagerState, toi: nat)
    requires PackagerOk(p)
    ensures CanSelect(p) ==> PackagerOk(SelectFront(p)) && PackagerPlaces(SelectFront(p)) == PackagerPlaces(p)
    ensures p.phase.Selected? ==> PackagerOk(Transmit(p, toi)) && PackagerPlaces(Transmit(p, toi)) == PackagerPlaces(p)
  {
  }

  lemma SelectedIsOutstanding(s: System, p: PackagerState)
    requires s.packager == Some(p) && PackagerOk(p) && p.phase.Selected?
    ensures p.phase.item.objectId in Places(s)
  {
    PopItemIds(p.items);
    assert p.phase.item.objectId in PackagerPlaces(p);
  }

  /** A step of the packager's own threads that moves ids around keeps the invariant. */
  lemma PackagerMoves(s: System, p: PackagerState, q: PackagerState)
    requires Placed(s) && s.packager == Some(p)
    requires PackagerOk(q) && PackagerPlaces(q) == PackagerPlaces(p)
    ensures Placed(s.(packager := Some(q))) && Places(s.(packager := Some(q))) == Places(s)
  {
  }

  predicate OfCompletion(step: Step) {
    step.HandleCompletion? || step.DeleteCompleted?
  }

  /** Other than by handling a completion, the packager's threads move ids within the packager. */
  lemma PackagerStepMoves(s: System, p: PackagerState, step: Step)
    requires PackagerOk(p) && s.packager == Some(p) && !OfCompletion(step) && PackagerThreads(s, p, step).Moved?
    requires step.TransmitterCompletes? ==> CompletedOnce(p, CompleteStep(step.toi))
    ensures var t := PackagerThreads(s, p, step).next;
            && t.packager.Some? && t == s.(packager := t.packager)
            && PackagerOk(t.packager.value) && PackagerPlaces(t.packager.value) == PackagerPlaces(p)
  {
    hide PackagerOk, PackagerPlaces;
    match step
    case SelectObject => SelectAndTransmitPlaces(p, 0);
    case SendObject(toi) => SelectAndTransmitPlaces(p, toi);
    case PopObject => PopPlaces(p);
    case TransmitterCompletes(toi) => CompletePlaces(p, toi);
    case TakeCompletion => BeginDispatchPlaces(p);
  }

  lemma PackagerThreadsKeepPlaced(s: System, p: PackagerState, step: Step)
    requires Placed(s) && s.packager == Some(p) && !OfCompletion(step)
    requires step.TransmitterCompletes? ==> CompletedOnce(p, CompleteStep(step.toi))
    ensures var outcome := PackagerThreads(s, p, step);
            && !outcome.LookupFailed?
            && (outcome.Moved? ==> Placed(outcome.next) && Places(outcome.next) == Places(s))
  {
    hide PackagerOk, PackagerPlaces;
    var outcome := PackagerThreads(s, p, step);
    if step.SendObject? && p.phase.Selected? {
      SelectedIsOutstanding(s, p);
    }
    if outcome.Moved? {
      PackagerStepMoves(s, p, step);
      PackagerMoves(s, p, outcome.next.packager.value);
    }
  }

  lemma OnceLeft(before: multiset<string>, after: multiset<string>, id: string, stored: set<string>, left: set<string>)
    requires PlacedOnce(before, stored) && before == after + multiset{id} && stored - {id} <= left
    ensures PlacedOnce(after, left) && id in stored && id !in after
  {
  }

  lemma OnceFewer(before: multiset<string>, after: multiset<string>, stored: set<string>)
    requires PlacedOnce(before, stored) && after <= before
    ensures PlacedOnce(after, stored)
  {
  }

  /** A step that takes the only occurrence of `id` out of the pipeline keeps the invariant, even
      if the object is deleted. */
  lemma LeavingKeepsPlaced(s: System, t: System, id: string)
    requires Placed(s) && Places(s) == Places(t) + multiset{id}
    requires t.packager.Some? ==> PackagerOk(t.packager.value)
    requires s.objects.Keys - {id} <= t.objects.Keys
    ensures Placed(t) && id in s.objects && Places(t) == Places(s) - multiset{id}
  {
    hide PackagerOk, Places;
    OnceLeft(Places(s), Places(t), id, s.objects.Keys, t.objects.Keys);
  }

  lemma QueueingAnEvent(s: System, objects: map<string, Metadata>, e: StoreEvent)
    ensures Places(s.(objects := objects, storeEvents := s.storeEvents + [e])) == Places(s) + multiset(AddedId(e))
  {
    AddedIdsAppend(s.storeEvents, e);
  }

  lemma DispatchingCompletion(s: System, p: PackagerState)
    requires s.packager == Some(p) && p.dispatching.Some?
    ensures Places(s) == Places(s.(packager := Some(EndDispatch(p)))) + multiset{p.dispatching.value}
  {
  }

  lemma EndDispatchOk(p: PackagerState)
    requires PackagerOk(p) && p.dispatching.Some?
    ensures PackagerOk(EndDispatch(p))
  {
  }

  /** The first half of handling a completion ends it, or leaves everything where it is. */
  lemma CompletionHandledPlaces(s: System, p: PackagerState)
    requires s.packager == Some(p) && p.dispatching.Some? && CompletionHandled(s, p).Moved?
    ensures var t := CompletionHandled(s, p).next;
            && t == s.(packager := t.packager, deleting := t.deleting)
            && ((t.packager == Some(EndDispatch(p)) && t.deleting == s.deleting
                 && (s.subscribed ==> p.dispatching.value in s.objects && s.objects[p.dispatching.value].keepAfterSend)
                 && Places(s) == Places(t) + multiset{p.dispatching.value})
                || (t.packager == s.packager && t.deleting && s.subscribed
                    && p.dispatching.value in s.objects && !s.objects[p.dispatching.value].keepAfterSend && Places(t) == Places(s)))
  {
    DispatchingCompletion(s, p);
  }

  lemma CompletedDeletedPlaces(s: System, p: PackagerState)
    requires s.packager == Some(p) && p.dispatching.Some?
    ensures Places(s) == Places(CompletedDeleted(s, p)) + multiset{p.dispatching.value}
    ensures StorePlaces(CompletedDeleted(s, p)) == StorePlaces(s)
  {
    hide Places, StorePlaces;
    var id := p.dispatching.value;
    DispatchingCompletion(s, p);
    var t := s.(packager := Some(EndDispatch(p)));
    QueueingAnEvent(t, s.objects - {id}, ObjectDeleted(id));
    IgnoringDeleting(t.(objects := s.objects - {id}, storeEvents := s.storeEvents + [ObjectDeleted(id)]), CompletedDeleted(s, p));
    DeletedStorePlaces(s, p);
  }

  lemma IgnoringDeleting(s: System, t: System)
    requires t == s.(deleting := t.deleting)
    ensures Places(t) == Places(s)
  {
  }

  lemma DeletedStorePlaces(s: System, p: PackagerState)
    requires p.dispatching.Some?
    ensures StorePlaces(CompletedDeleted(s, p)) == StorePlaces(s)
  {
    hide AddedIds, EndDispatch;
    AddedIdsAppend(s.storeEvents, ObjectDeleted(p.dispatching.value));
  }

  lemma CompletionStepKeepsPlaced(s: System, p: PackagerState, step: Step)
    requires Placed(s) && s.packager == Some(p) && OfCompletion(step)
    ensures var outcome := PackagerThreads(s, p, step);
            && !outcome.LookupFailed?
            && (outcome.Moved? ==> Placed(outcome.next) && Places(outcome.next) <= Places(s))
  {
    hide PackagerOk, Places, CompletionHandled, CompletedDeleted;
    if p.dispatching.Some? {
      var id := p.dispatching.value;
      DispatchingCompletion(s, p);
      EndDispatchOk(p);
      assert id in Places(s) && id in s.objects;
      StoredCompletionMoves(s, p);
      if step.HandleCompletion? {
        CompletionHandledPlaces(s, p);
        var t := CompletionHandled(s, p).next;
        if t.packager == Some(EndDispatch(p)) && Places(s) == Places(t) + multiset{id} {
          LeavingKeepsPlaced(s, t, id);
        }
      } else {
        CompletedDeletedPlaces(s, p);
        DeletedKeys(s, p);
        LeavingKeepsPlaced(s, CompletedDeleted(s, p), id);
      }
    }
  }

  lemma StoredCompletionMoves(s: System, p: PackagerState)
    requires p.dispatching.Some? && p.dispatching.value in s.objects
    ensures CompletionHandled(s, p).Moved?
  {
  }

  lemma DeletedKeys(s: System, p: PackagerState)
    requires p.dispatching.Some?
    ensures var t := CompletedDeleted(s, p);
            t.objects == s.objects - {p.dispatching.value} && t.packager == Some(EndDispatch(p))
  {
  }

  // ----- The handler of ObjectAdded -----

  lemma ObjectCheckedKeepsPlaced(s: System, id: string)
    requires Placed(s) && s.storeDispatching == Some(Delivering(ObjectAdded(id)))
    ensures var outcome := ObjectChecked(s, id);
            outcome.Moved? && Placed(outcome.next) && Places(outcome.next) == Places(s) && StorePlaces(outcome.next) == StorePlaces(s)
  {
    hide PackagerOk, PackagerPlaces;
    assert id in StorePlaces(s) && id in Places(s);
    ObjectCheckedPlaces(s, id);
  }

  /** Checking an object moves no id, and changes no more than a mark. */
  lemma ObjectCheckedPlaces(s: System, id: string)
    requires s.storeDispatching == Some(Delivering(ObjectAdded(id))) && ObjectChecked(s, id).Moved?
    ensures var t := ObjectChecked(s, id).next;
            && id in s.objects
            && t == s.(objects := t.objects, storeDispatching := Some(Checked(id, IsManifest(s, id))))
            && t.objects == (if IsManifest(s, id) then s.objects[id := s.objects[id].(keepAfterSend := true)] else s.objects)
            && Places(t) == Places(s) && StorePlaces(t) == StorePlaces(s)
  {
    hide PackagerPlaces;
  }

  /** What acting on the outcome does to everything but the packager. */
  lemma HandledChanges(s: System, added: string, isManifest: bool, verdict: Verdict)
    requires AddedHandled(s, added, isManifest, verdict).Moved?
    ensures var t := AddedHandled(s, added, isManifest, verdict).next;
            && t.objects == s.objects && t.storeEvents == s.storeEvents && t.storeDispatching.None?
            && t.deleting == s.deleting && t.manifestUrl == s.manifestUrl && t.hasDestination == s.hasDestination
  {
    hide PackageObject;
    var done := s.(storeDispatching := None);
    PackagingChanges(done, added);
    if verdict.Understood? { PackagingChanges(done.(hasHandler := s.hasHandler || verdict.handlerMade), added); }
  }

  lemma PackagingChanges(s: System, id: string)
    ensures var t := PackageObject(s, id);
            t.packager.Some? && t == s.(packager := t.packager, subscribed := s.subscribed && s.packager.Some?)
  {
  }

  lemma DispatchedIsOutstanding(s: System, id: string, isManifest: bool)
    requires s.storeDispatching == Some(Checked(id, isManifest))
    ensures Places(s) == Places(s.(storeDispatching := None)) + multiset{id}
  {
  }

  /** Handing an object on from the store thread to the packager moves its one occurrence. */
  lemma HandingOnKeepsPlaced(s: System, t: System, id: string, isManifest: bool)
    requires Placed(s) && s.storeDispatching == Some(Checked(id, isManifest))
    requires t == s.(storeDispatching := None, hasHandler := t.hasHandler)
    ensures Placed(PackageObject(t, id)) && Places(PackageObject(t, id)) == Places(s)
    ensures Placed(t) && Places(s) == Places(t) + multiset{id}
  {
    DispatchedIsOutstanding(s, id, isManifest);
    var done := s.(storeDispatching := None);
    assert Places(t) == Places(done);
    LeavingKeepsPlaced(s, t, id);
    PackageObjectPlaces(t, id);
  }

  lemma WithoutPackager(s: System)
    ensures var t := s.(packager := None, subscribed := false);
            s.packager.Some? ==> Places(s) == Places(t) + PackagerPlaces(s.packager.value)
    ensures s.packager.None? ==> Places(s) == Places(s.(packager := None, subscribed := false))
  {
    hide StorePlaces, PackagerPlaces;
    var t := s.(packager := None, subscribed := false);
    assert StorePlaces(t) == StorePlaces(s) by { StorePlacesFrame(t, s); }
  }

  lemma StorePlacesFrame(s: System, t: System)
    requires s.storeEvents == t.storeEvents && s.storeDispatching == t.storeDispatching
    ensures StorePlaces(s) == StorePlaces(t)
  {
  }

  lemma DroppingThePackager(s: System)
    requires Placed(s)
    ensures var t := s.(packager := None, subscribed := false); Placed(t) && Places(t) <= Places(s)
  {
    hide PackagerOk, Places, PackagerPlaces;
    WithoutPackager(s);
    OnceFewer(Places(s), Places(s.(packager := None, subscribed := false)), s.objects.Keys);
  }

  lemma AddedHandledKeepsPlaced(s: System, id: string, isManifest: bool, verdict: Verdict)
    requires Placed(s) && s.storeDispatching == Some(Checked(id, isManifest))
    ensures var outcome := AddedHandled(s, id, isManifest, verdict);
            && !outcome.LookupFailed?
            && (outcome.Moved? ==> Placed(outcome.next) && Places(outcome.next) <= Places(s))
  {
    hide PackagerOk, Places, PackageObject;
    var done := s.(storeDispatching := None);
    HandingOnKeepsPlaced(s, done, id, isManifest);
    assert id in s.objects by { LeavingKeepsPlaced(s, done, id); }
    if isManifest && verdict.Understood? {
      HandingOnKeepsPlaced(s, done.(hasHandler := s.hasHandler || verdict.handlerMade), id, isManifest);
    } else if isManifest {
      DroppingThePackager(done);
    }
  }

  lemma TakingPlaces(s: System)
    requires s.storeDispatching.None? && s.storeEvents != []
    ensures Places(EventTaken(s)) == Places(s) && StorePlaces(EventTaken(s)) == StorePlaces(s)
  {
    hide PackagerPlaces, AddedIds, AddedId;
    HeadIds(s.storeEvents);
  }

  lemma HeadIds(events: seq<StoreEvent>)
    requires events != []
    ensures multiset(AddedIds(events)) == multiset(AddedId(events[0])) + multiset(AddedIds(events[1..]))
  {
    hide AddedId;
  }

  lemma DeletedHandledPlaces(s: System)
    requires s.storeDispatching.Some? && s.storeDispatching.value.Delivering? && s.storeDispatching.value.event.ObjectDeleted?
    ensures Places(s.(storeDispatching := None)) == Places(s)
    ensures StorePlaces(s.(storeDispatching := None)) == StorePlaces(s)
  {
  }

  lemma StoreStepKeepsPlaced(s: System, step: Step)
    requires Placed(s) && (step.TakeStoreEvent? || step.CheckObject? || step.HandleStoreEvent?)
    ensures var outcome := Next(s, step);
            && !outcome.LookupFailed?
            && (outcome.Moved? ==> Placed(outcome.next) && Places(outcome.next) <= Places(s))
  {
    hide PackagerOk, Places, ObjectChecked, AddedHandled;
    if s.storeDispatching.None? {
      if s.storeEvents != [] { TakingPlaces(s); }
    } else if s.storeDispatching.value.Checked? {
      if step.HandleStoreEvent? {
        AddedHandledKeepsPlaced(s, s.storeDispatching.value.objectId, s.storeDispatching.value.isManifest, step.verdict);
      }
    } else if s.storeDispatching.value.event.ObjectAdded? {
      ObjectCheckedKeepsPlaced(s, s.storeDispatching.value.event.objectId);
    } else {
      DeletedHandledPlaces(s);
    }
  }

  /** Storing an object keeps every id in one place exactly when its id is not outstanding. */
  lemma IngestKeepsPlacedIff(s: System, id: string, origin: Origin)
    requires Placed(s)
    ensures Places(Store(s, id, origin)) == Places(s) + multiset{id}
    ensures Placed(Store(s, id, origin)) <==> id !in Places(s)
  {
    var t := Store(s, id, origin);
    QueueingAnEvent(s, t.objects, ObjectAdded(id));
    assert id in Places(t) && Places(t)[id] == Places(s)[id] + 1;
    if id !in Places(s) {
      forall x | x in Places(t) ensures Places(t)[x] == 1 && x in t.objects {
        assert x == id || x in Places(s);
      }
    }
  }

  lemma PackagerStepsKeepPlaced(s: System, p: PackagerState, step: Step)
    requires Placed(s) && s.packager == Some(p)
    requires step.TransmitterCompletes? ==> CompletedOnce(p, CompleteStep(step.toi))
    ensures var outcome := PackagerThreads(s, p, step);
            && !outcome.LookupFailed?
            && (outcome.Moved? ==> Placed(outcome.next))
  {
    hide PackagerOk, Places, PackagerThreads;
    if OfCompletion(step) {
      CompletionStepKeepsPlaced(s, p, step);
    } else {
      PackagerThreadsKeepPlaced(s, p, step);
    }
  }

  lemma StepKeepsPlaced(s: System, step: Step)
    requires Placed(s) && Admissible(s, step)
    ensures !Next(s, step).LookupFailed?
    ensures Next(s, step).Moved? ==> Placed(Next(s, step).next)
  {
    hide PackagerThreads, ObjectChecked, AddedHandled, Places, PackagerOk;
    if step.Ingest? {
      IngestKeepsPlacedIff(s, step.objectId, step.origin);
    } else if step.TakeStoreEvent? || step.CheckObject? || step.HandleStoreEvent? {
      StoreStepKeepsPlaced(s, step);
    } else if s.packager.Some? {
      PackagerStepsKeepPlaced(s, s.packager.value, step);
    }
  }

  // ----- What the handlers found out -----

  /** The ids that the two handlers are about are outstanding. */
  lemma HandledIdsArePlaced(s: System)
    ensures forall id :: id in AddedInSlot(s.storeDispatching) ==> id in StorePlaces(s) && id in Places(s)
    ensures s.packager.Some? && s.packager.value.dispatching.Some? ==> s.packager.value.dispatching.value in Places(s)
  {
    assert forall id :: id in AddedInSlot(s.storeDispatching) ==> id in StorePlaces(s);
    if s.packager.Some? && s.packager.value.dispatching.Some? {
      assert s.packager.value.dispatching.value in PackagerPlaces(s.packager.value);
    }
  }

  /** They are stored, and not the same. */
  lemma HandledIdsAreOutstanding(s: System)
    requires Placed(s)
    ensures forall id :: id in AddedInSlot(s.storeDispatching) ==> id in StorePlaces(s) && id in Places(s) && id in s.objects
    ensures s.packager.Some? && s.packager.value.dispatching.Some? ==>
              s.packager.value.dispatching.value in Places(s) && s.packager.value.dispatching.value !in StorePlaces(s)
  {
    hide PackagerOk;
    HandledIdsArePlaced(s);
    if s.packager.Some? && s.packager.value.dispatching.Some? {
      var id := s.packager.value.dispatching.value;
      assert id in PackagerPlaces(s.packager.value);
      assert Places(s)[id] == 1;
    }
  }

  lemma IngestKeepsHandlersOk(s: System, id: string, origin: Origin)
    requires HandlersOk(s) && id !in Places(s)
    ensures HandlersOk(Store(s, id, origin))
  {
    HandledIdsArePlaced(s);
    hide Places;
  }

  lemma CheckKeepsHandlersOk(s: System, id: string)
    requires HandlersOk(s) && s.storeDispatching == Some(Delivering(ObjectAdded(id))) && ObjectChecked(s, id).Moved?
    requires s.deleting ==> s.packager.value.dispatching.value != id
    ensures HandlersOk(ObjectChecked(s, id).next)
  {
    hide Places, StorePlaces, ObjectChecked;
    ObjectCheckedPlaces(s, id);
  }

  lemma HandledKeepsHandlersOk(s: System, id: string, isManifest: bool, verdict: Verdict)
    requires HandlersOk(s) && AddedHandled(s, id, isManifest, verdict).Moved?
    ensures HandlersOk(AddedHandled(s, id, isManifest, verdict).next)
  {
    hide Insert;
  }

  lemma PackagerKeepsHandlersOk(s: System, p: PackagerState, step: Step)
    requires HandlersOk(s) && s.packager == Some(p) && PackagerThreads(s, p, step).Moved?
    ensures HandlersOk(PackagerThreads(s, p, step).next)
  {
  }

  lemma StepKeepsHandlersOk(s: System, step: Step)
    requires HandlersOk(s) && Admissible(s, step) && Next(s, step).Moved?
    requires step.CheckObject? && s.deleting ==> s.packager.value.dispatching.value != s.storeDispatching.value.event.objectId
    ensures HandlersOk(Next(s, step).next)
  {
    hide Places, ObjectChecked, AddedHandled, PackagerThreads;
    if step.Ingest? {
      IngestKeepsHandlersOk(s, step.objectId, step.origin);
    } else if step.CheckObject? {
      CheckKeepsHandlersOk(s, s.storeDispatching.value.event.objectId);
    } else if step.HandleStoreEvent? {
      if s.storeDispatching.value.Checked? {
        HandledKeepsHandlersOk(s, s.storeDispatching.value.objectId, s.storeDispatching.value.isManifest, step.verdict);
      }
    } else if !step.TakeStoreEvent? {
      PackagerKeepsHandlersOk(s, s.packager.value, step);
    }
  }

  lemma CheckedIsNotDeleted(s: System, step: Step)
    requires Inv(s) && step.CheckObject? && Next(s, step).Moved? && s.deleting
    ensures s.packager.value.dispatching.value != s.storeDispatching.value.event.objectId
  {
    hide Placed, Places, StorePlaces, ObjectChecked;
    HandledIdsAreOutstanding(s);
    assert s.storeDispatching.value.event.objectId in AddedInSlot(s.storeDispatching);
  }

  /** Storing an object keeps the invariant exactly when its id is not outstanding. */
  lemma {:induction false} IngestKeepsInvIff(s: System, id: string, origin: Origin)
    requires Inv(s)
    ensures Places(Store(s, id, origin)) == Places(s) + multiset{id}
    ensures Inv(Store(s, id, origin)) <==> id !in Places(s)
  {
    hide Placed, HandlersOk, Places;
    IngestKeepsPlacedIff(s, id, origin);
    if id !in Places(s) {
      IngestKeepsHandlersOk(s, id, origin);
    }
  }

  /** No step a thread can take looks up an object that is not in the store, and every step keeps
      the invariant. */
  lemma StepKeepsInv(s: System, step: Step)
    requires Inv(s) && Admissible(s, step)
    ensures !Next(s, step).LookupFailed?
    ensures Next(s, step).Moved? ==> Inv(Next(s, step).next)
  {
    StepKeepsPlaced(s, step);
    if Next(s, step).Moved? {
      if step.CheckObject? && s.deleting { CheckedIsNotDeleted(s, step); }
      hide Placed, HandlersOk, Next, Admissible;
      StepKeepsHandlersOk(s, step);
    }
  }

  // ----- Runs -----

  predicate AdmissibleRun(s: System, steps: seq<Step>)
    decreases |steps|
  {
    steps == [] || (Admissible(s, steps[0]) && (Next(s, steps[0]).Moved? ==> AdmissibleRun(Next(s, steps[0]).next, steps[1..])))
  }

  /** The state after a run, or what stopped it. */
  function Run(s: System, steps: seq<Step>): Outcome
    decreases |steps|
  {
    if steps == [] then Moved(s)
    else if Next(s, steps[0]).Moved? then Run(Next(s, steps[0]).next, steps[1..])
    else Next(s, steps[0])
  }

  lemma {:induction false} RunKeepsInv(s: System, steps: seq<Step>)
    requires Inv(s) && AdmissibleRun(s, steps)
    ensures !Run(s, steps).LookupFailed?
    ensures Run(s, steps).Moved? ==> Inv(Run(s, steps).next)
    decreases |steps|
  {
    hide Inv, Next, Admissible;
    if steps != [] {
      StepKeepsInv(s, steps[0]);
      if Next(s, steps[0]).Moved? {
        RunKeepsInv(Next(s, steps[0]).next, steps[1..]);
      }
    }
  }

  lemma InitialInv(manifestUrl: string, hasDestination: bool)
    ensures Inv(Initial(manifestUrl, hasDestination))
    ensures Places(Initial(manifestUrl, hasDestination)) == multiset{}
  {
  }
}
