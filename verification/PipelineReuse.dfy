/** Storing an object under an id that is still outstanding: exactly when it leads to a failing
    lookup in the store. */
module PipelineReuse {
  import opened Basics
  import opened ObjectListPackager
  import opened StreamingPipeline
  import opened PipelineDrain
  import opened PipelineDrops

  // ----- Before and after the check -----

  /** The ids whose ObjectAdded event is still to be looked at. */
  function Unchecked(s: System): multiset<string> {
    multiset(AddedIds(s.storeEvents)) +
    if s.storeDispatching.Some? && s.storeDispatching.value.Delivering? then multiset(AddedId(s.storeDispatching.value.event))
    else multiset{}
  }

  function InPackager(s: System): multiset<string> {
    if s.packager.Some? then PackagerPlaces(s.packager.value) else multiset{}
  }

  /** The ids of checked objects, on their way to the packager or in it. */
  function PastCheck(s: System): multiset<string> {
    InPackager(s) +
    if s.storeDispatching.Some? && s.storeDispatching.value.Checked? then multiset{s.storeDispatching.value.objectId}
    else multiset{}
  }

  lemma PlacesAreInTwoParts(s: System)
    ensures Places(s) == Unchecked(s) + PastCheck(s)
  {
  }

  // ----- What the steps do to the two parts -----

  ghost predicate SameParts(s: System, t: System) {
    Unchecked(t) == Unchecked(s) && PastCheck(t) == PastCheck(s)
  }

  lemma StoringParts(s: System, id: string, origin: Origin)
    ensures Unchecked(Store(s, id, origin)) == Unchecked(s) + multiset{id}
    ensures PastCheck(Store(s, id, origin)) == PastCheck(s)
  {
    hide AddedIds, PackagerPlaces;
    AddedIdsAppend(s.storeEvents, ObjectAdded(id));
  }

  lemma TakingParts(s: System)
    requires s.storeDispatching.None? && s.storeEvents != []
    ensures SameParts(s, EventTaken(s))
  {
    hide PackagerPlaces, AddedIds, AddedId;
    HeadIds(s.storeEvents);
  }

  lemma CheckingParts(s: System, id: string)
    requires s.storeDispatching == Some(Delivering(ObjectAdded(id))) && ObjectChecked(s, id).Moved?
    ensures var t := ObjectChecked(s, id).next;
            Unchecked(s) == Unchecked(t) + multiset{id} && PastCheck(t) == PastCheck(s) + multiset{id}
  {
    hide AddedIds, PackagerPlaces;
  }

  lemma IgnoringDeletedParts(s: System)
    requires s.storeDispatching.Some? && s.storeDispatching.value.Delivering? && s.storeDispatching.value.event.ObjectDeleted?
    ensures SameParts(s, s.(storeDispatching := None))
  {
    hide AddedIds, PackagerPlaces;
  }

  lemma EmptyPackager()
    ensures PackagerOk(NewPackager([])) && PackagerPlaces(NewPackager([])) == multiset{}
  {
  }

  lemma PackagingParts(s: System, id: string)
    requires s.packager.Some? ==> PackagerOk(s.packager.value)
    ensures var t := PackageObject(s, id); PackagerOk(t.packager.value) && InPackager(t) == InPackager(s) + multiset{id}
  {
    hide PackagerOk, PackagerPlaces, AddItem;
    EmptyPackager();
    AddItemIsPushBack(if s.packager.Some? then s.packager.value else NewPackager([]), id);
  }

  lemma HandingOnParts(s: System, id: string, isManifest: bool, t: System)
    requires s.packager.Some? ==> PackagerOk(s.packager.value)
    requires s.storeDispatching == Some(Checked(id, isManifest)) && t == s.(storeDispatching := None, hasHandler := t.hasHandler)
    ensures var u := PackageObject(t, id);
            && u.packager.Some? && PackagerOk(u.packager.value) && SameParts(s, u)
            && u.subscribed == (s.subscribed && s.packager.Some?)
  {
    hide AddedIds, PackagerPlaces, PackagerOk, PackageObject;
    PackagingParts(t, id);
    PackagingChanges(t, id);
    assert InPackager(t) == InPackager(s);
  }

  lemma HandlingParts(s: System, id: string, isManifest: bool, verdict: Verdict)
    requires s.packager.Some? ==> PackagerOk(s.packager.value)
    requires s.storeDispatching == Some(Checked(id, isManifest)) && AddedHandled(s, id, isManifest, verdict).Moved?
    ensures var t := AddedHandled(s, id, isManifest, verdict).next;
            && (t.packager.Some? ==> PackagerOk(t.packager.value))
            && Unchecked(t) == Unchecked(s) && PastCheck(t) <= PastCheck(s)
            && (verdict.Understood? ==> t.packager.Some? && PastCheck(t) == PastCheck(s)
                                        && (s.packager.Some? ==> t.subscribed == s.subscribed))
  {
    hide Unchecked, PastCheck, PackagerOk, PackageObject;
    var done := s.(storeDispatching := None);
    HandingOnParts(s, id, isManifest, done);
    if verdict.Understood? {
      HandingOnParts(s, id, isManifest, done.(hasHandler := s.hasHandler || verdict.handlerMade));
    } else {
      LettingGoParts(s, id, isManifest, done);
      LettingGoParts(s, id, isManifest, done.(packager := None, subscribed := false));
    }
  }

  lemma LettingGoParts(s: System, id: string, isManifest: bool, t: System)
    requires s.storeDispatching == Some(Checked(id, isManifest)) && t.storeDispatching.None? && t.storeEvents == s.storeEvents
    requires t.packager == s.packager || t.packager.None?
    ensures Unchecked(t) == Unchecked(s) && PastCheck(t) <= PastCheck(s)
  {
    hide AddedIds, PackagerPlaces;
  }

  lemma PackagerStepParts(s: System, p: PackagerState, step: Step)
    requires PackagerOk(p) && s.packager == Some(p) && !OfCompletion(step) && PackagerThreads(s, p, step).Moved?
    requires step.TransmitterCompletes? ==> CompletedOnce(p, CompleteStep(step.toi))
    ensures var t := PackagerThreads(s, p, step).next;
            t.packager.Some? && t == s.(packager := t.packager) && PackagerOk(t.packager.value) && SameParts(s, t)
  {
    hide AddedIds, PackagerPlaces, PackagerOk, PackagerThreads;
    PackagerStepMoves(s, p, step);
  }

  lemma EndDispatchPlaces(p: PackagerState)
    requires p.dispatching.Some?
    ensures PackagerPlaces(p) == PackagerPlaces(EndDispatch(p)) + multiset{p.dispatching.value}
  {
  }

  lemma CompletionParts(s: System, p: PackagerState)
    requires PackagerOk(p) && s.packager == Some(p) && p.dispatching.Some? && CompletionHandled(s, p).Moved?
    ensures var t := CompletionHandled(s, p).next;
            && t == s.(packager := t.packager, deleting := t.deleting)
            && t.packager.Some? && PackagerOk(t.packager.value) && Unchecked(t) == Unchecked(s)
            && (s.subscribed ==> p.dispatching.value in s.objects)
            && (if t.packager == s.packager
                then t.deleting && s.subscribed && !s.objects[p.dispatching.value].keepAfterSend && PastCheck(t) == PastCheck(s)
                else && t.packager.value == EndDispatch(p) && t.deleting == s.deleting
                     && (s.subscribed ==> s.objects[p.dispatching.value].keepAfterSend)
                     && PastCheck(s) == PastCheck(t) + multiset{p.dispatching.value})
  {
    hide AddedIds, PackagerPlaces, PackagerOk;
    EndDispatchPlaces(p);
    EndDispatchOk(p);
  }

  lemma DeletionParts(s: System, p: PackagerState)
    requires PackagerOk(p) && s.packager == Some(p) && p.dispatching.Some?
    ensures var t := CompletedDeleted(s, p);
            && t.packager == Some(EndDispatch(p)) && PackagerOk(EndDispatch(p))
            && Unchecked(t) == Unchecked(s) && PastCheck(s) == PastCheck(t) + multiset{p.dispatching.value}
  {
    hide AddedIds, PackagerPlaces, PackagerOk;
    EndDispatchPlaces(p);
    EndDispatchOk(p);
    AddedIdsAppend(s.storeEvents, ObjectDeleted(p.dispatching.value));
  }

  // ----- Doomed pipelines -----

  ghost predicate Running(s: System) {
    Listening(s) && PackagerOk(s.packager.value) && s.hasDestination
  }

  predicate BeingDeleted(s: System, id: string) {
    s.deleting && s.packager.Some? && s.packager.value.dispatching == Some(id)
  }

  /** An object that is placed twice will be deleted before its last place is done with, unless it
      is a manifest that is marked first; or it has been deleted already and still has a place. */
  ghost predicate Doomed(s: System, id: string) {
    if id !in s.objects then id in Unchecked(s) + PastCheck(s) && !BeingDeleted(s, id)
    else
      && !s.objects[id].keepAfterSend
      && (Unchecked(s) + PastCheck(s))[id] >= 2
      && (IsManifest(s, id) ==> id in Unchecked(s) && id in PastCheck(s))
  }

  ghost predicate Closer(s: System, t: System, id: string) {
    Running(t) && Doomed(t, id) && 0 <= Measure(t) < Measure(s)
  }

  lemma CompletionStaysDoomed(s: System, p: PackagerState, step: Step, id: string)
    requires Running(s) && Doomed(s, id) && s.packager == Some(p) && OfCompletion(step) && PackagerThreads(s, p, step).Moved?
    ensures Running(PackagerThreads(s, p, step).next) && Doomed(PackagerThreads(s, p, step).next, id)
  {
    hide Unchecked, PastCheck, PackagerOk, CompletionHandled;
    if step.DeleteCompleted? {
      DeletionParts(s, p);
    } else {
      CompletionParts(s, p);
    }
  }

  lemma PackagerStepStaysDoomed(s: System, p: PackagerState, step: Step, id: string)
    requires Running(s) && Doomed(s, id) && s.packager == Some(p) && PackagerThreads(s, p, step).Moved?
    requires step.TransmitterCompletes? ==> CompletedOnce(p, CompleteStep(step.toi))
    ensures Running(PackagerThreads(s, p, step).next) && Doomed(PackagerThreads(s, p, step).next, id)
  {
    hide Unchecked, PastCheck, PackagerOk, CompletionHandled, CompletedDeleted;
    if OfCompletion(step) {
      CompletionStaysDoomed(s, p, step, id);
    } else {
      PackagerStepParts(s, p, step);
    }
  }

  lemma StoreStepStaysDoomed(s: System, step: Step, id: string)
    requires Running(s) && Doomed(s, id) && OfStoreThread(step) && Next(s, step).Moved?
    requires step.HandleStoreEvent? ==> step.verdict.Understood?
    requires id in s.objects && IsManifest(s, id) ==> s.storeDispatching.Some? && s.storeDispatching.value.Checked?
    ensures Running(Next(s, step).next) && Doomed(Next(s, step).next, id)
  {
    hide Unchecked, PastCheck, PackagerOk, ObjectChecked, AddedHandled, Doomed;
    if step.TakeStoreEvent? {
      TakingParts(s);
      SamePartsStayDoomed(s, EventTaken(s), id);
    } else if step.CheckObject? {
      CheckingStaysDoomed(s, s.storeDispatching.value.event.objectId, id);
    } else if s.storeDispatching.value.Checked? {
      HandlingStaysDoomed(s, s.storeDispatching.value.objectId, s.storeDispatching.value.isManifest, step.verdict, id);
    } else {
      IgnoringDeletedParts(s);
      SamePartsStayDoomed(s, s.(storeDispatching := None), id);
    }
  }

  lemma SamePartsStayDoomed(s: System, t: System, id: string)
    requires Doomed(s, id) && SameParts(s, t) && t == s.(storeDispatching := t.storeDispatching, storeEvents := t.storeEvents)
    ensures Doomed(t, id)
  {
    hide Unchecked, PastCheck;
  }

  lemma CheckingStaysDoomed(s: System, checked: string, id: string)
    requires Running(s) && Doomed(s, id) && !(id in s.objects && IsManifest(s, id))
    requires s.storeDispatching == Some(Delivering(ObjectAdded(checked))) && ObjectChecked(s, checked).Moved?
    ensures Running(ObjectChecked(s, checked).next) && Doomed(ObjectChecked(s, checked).next, id)
  {
    hide Unchecked, PastCheck, PackagerOk, ObjectChecked, Places, StorePlaces;
    CheckingParts(s, checked);
    ObjectCheckedPlaces(s, checked);
  }

  lemma HandlingStaysDoomed(s: System, added: string, isManifest: bool, verdict: Verdict, id: string)
    requires Running(s) && Doomed(s, id) && verdict.Understood?
    requires s.storeDispatching == Some(Checked(added, isManifest)) && AddedHandled(s, added, isManifest, verdict).Moved?
    ensures Running(AddedHandled(s, added, isManifest, verdict).next) && Doomed(AddedHandled(s, added, isManifest, verdict).next, id)
  {
    hide Unchecked, PastCheck, PackagerOk, AddedHandled;
    HandledChanges(s, added, isManifest, verdict);
    HandlingParts(s, added, isManifest, verdict);
    HandlingKeepsDispatching(s, added, isManifest, verdict);
  }

  lemma HandlingKeepsDispatching(s: System, added: string, isManifest: bool, verdict: Verdict)
    requires s.packager.Some? && AddedHandled(s, added, isManifest, verdict).Moved? && verdict.Understood?
    ensures var t := AddedHandled(s, added, isManifest, verdict).next;
            t.packager.Some? && t.packager.value.dispatching == s.packager.value.dispatching
  {
  }

  /** The step to take next: while the object is a manifest, what leads to its deletion before it is
      marked; otherwise any. */
  lemma DoomedStep(s: System, id: string) returns (step: Step)
    requires Running(s) && Doomed(s, id)
    ensures Admissible(s, step) && !Next(s, step).Blocked?
    ensures Next(s, step).Moved? ==> Closer(s, Next(s, step).next, id)
  {
    hide Measure, PackagerThreads, ObjectChecked, AddedHandled, Doomed, PackagerOk;
    var slot := s.storeDispatching;
    if slot.Some? && slot.value.Checked? {
      step := HandleStoreEvent(Understood(false));
      UnderstoodIsNotBlocked(s, slot.value.objectId, slot.value.isManifest);
    } else if (slot.None? && s.storeEvents == []) || (id in s.objects && IsManifest(s, id)) {
      DoomedPackagerHasWork(s, id);
      step := BusyPackagerStep(s, s.packager.value);
    } else {
      CheckIsNotBlocked(s);
      step := if slot.None? then TakeStoreEvent
              else if slot.value.event.ObjectAdded? then CheckObject else HandleStoreEvent(Understood(false));
    }
    if Next(s, step).Moved? {
      if OfStoreThread(step) {
        StoreStepStaysDoomed(s, step, id);
      } else {
        PackagerStepStaysDoomed(s, s.packager.value, step, id);
      }
      StepDecreases(s, step);
      MeasureIsNatural(Next(s, step).next);
    }
  }

  lemma UnderstoodIsNotBlocked(s: System, id: string, isManifest: bool)
    ensures !AddedHandled(s, id, isManifest, Understood(false)).Blocked?
  {
    hide PackageObject;
  }

  lemma CheckIsNotBlocked(s: System)
    ensures forall id :: !ObjectChecked(s, id).Blocked?
  {
  }

  lemma DoomedPackagerHasWork(s: System, id: string)
    requires Running(s) && Doomed(s, id) && !(s.storeDispatching.Some? && s.storeDispatching.value.Checked?)
    requires (s.storeDispatching.None? && s.storeEvents == []) || (id in s.objects && IsManifest(s, id))
    ensures !PackagerAtRest(s.packager.value)
  {
    hide PackagerOk;
    if PackagerAtRest(s.packager.value) {
      RestingPackagerIsEmpty(s.packager.value);
    }
  }

  lemma RestingPackagerIsEmpty(p: PackagerState)
    requires PackagerAtRest(p)
    ensures PackagerPlaces(p) == multiset{}
  {
  }

  lemma {:induction false} DoomedRunFails(s: System, id: string) returns (steps: seq<Step>)
    requires Running(s) && Doomed(s, id)
    ensures AdmissibleRun(s, steps) && Run(s, steps).LookupFailed?
    decreases Measure(s)
  {
    hide Running, Doomed, Measure, Next, Admissible;
    var step := DoomedStep(s, id);
    var rest := [];
    if Next(s, step).Moved? {
      NaturalMeasure(s);
      rest := DoomedRunFails(Next(s, step).next, id);
    }
    steps := [step] + rest;
    assert steps[1..] == rest;
  }

  lemma NaturalMeasure(s: System)
    requires Running(s)
    ensures 0 <= Measure(s)
  {
    hide Measure, PackagerOk;
    MeasureIsNatural(s);
  }

  // ----- Everything outstanding is stored -----

  ghost predicate AllStored(s: System) {
    && (s.packager.Some? ==> PackagerOk(s.packager.value))
    && forall x :: x in Unchecked(s) + PastCheck(s) ==> x in s.objects
  }

  lemma SlotsAreInTheParts(s: System)
    ensures s.storeDispatching.Some? && s.storeDispatching.value.Checked? ==> s.storeDispatching.value.objectId in PastCheck(s)
    ensures s.storeDispatching.Some? && s.storeDispatching.value.Delivering? && s.storeDispatching.value.event.ObjectAdded? ==>
              s.storeDispatching.value.event.objectId in Unchecked(s)
    ensures s.packager.Some? && s.packager.value.dispatching.Some? ==> s.packager.value.dispatching.value in PastCheck(s)
  {
    hide AddedIds;
    if s.packager.Some? && s.packager.value.dispatching.Some? {
      assert s.packager.value.dispatching.value in PackagerPlaces(s.packager.value);
    }
  }

  lemma NoLookupFails(s: System, step: Step)
    requires AllStored(s)
    ensures !Next(s, step).LookupFailed?
  {
    hide Unchecked, PastCheck, PackagerOk, Places, PackageObject;
    SlotsAreInTheParts(s);
    if step.SendObject? && s.packager.Some? && s.packager.value.phase.Selected? {
      SelectedIsOutstanding(s, s.packager.value);
      PlacesAreInTwoParts(s);
    }
  }

  /** A step takes ids out of the pipeline or moves them along; only storing brings one in. */
  lemma StepParts(s: System, step: Step)
    requires (s.packager.Some? ==> PackagerOk(s.packager.value)) && Admissible(s, step) && Next(s, step).Moved?
    ensures var t := Next(s, step).next;
            && (t.packager.Some? ==> PackagerOk(t.packager.value))
            && Unchecked(t) + PastCheck(t) <= Unchecked(s) + PastCheck(s) + if step.Ingest? then multiset{step.objectId} else multiset{}
  {
    hide Unchecked, PastCheck, PackagerOk, Places, PackagerThreads, ObjectChecked, AddedHandled;
    if step.Ingest? {
      StoringParts(s, step.objectId, step.origin);
    } else if step.TakeStoreEvent? {
      TakingParts(s);
    } else if step.CheckObject? {
      ObjectCheckedPlaces(s, s.storeDispatching.value.event.objectId);
      CheckingParts(s, s.storeDispatching.value.event.objectId);
    } else if step.HandleStoreEvent? {
      if s.storeDispatching.value.Checked? {
        HandlingParts(s, s.storeDispatching.value.objectId, s.storeDispatching.value.isManifest, step.verdict);
      } else {
        IgnoringDeletedParts(s);
      }
    } else {
      PackagerThreadParts(s, s.packager.value, step);
    }
  }

  lemma PackagerThreadParts(s: System, p: PackagerState, step: Step)
    requires PackagerOk(p) && s.packager == Some(p) && PackagerThreads(s, p, step).Moved?
    requires step.TransmitterCompletes? ==> CompletedOnce(p, CompleteStep(step.toi))
    ensures var t := PackagerThreads(s, p, step).next;
            && (t.packager.Some? ==> PackagerOk(t.packager.value))
            && Unchecked(t) == Unchecked(s) && PastCheck(t) <= PastCheck(s)
  {
    hide Unchecked, PastCheck, PackagerOk, CompletionHandled, CompletedDeleted;
    if step.HandleCompletion? {
      CompletionParts(s, p);
    } else if step.DeleteCompleted? {
      DeletionParts(s, p);
    } else {
      PackagerStepParts(s, p, step);
    }
  }

  lemma StoredStays(s: System, step: Step)
    requires AllStored(s) && Deaf(s) && Admissible(s, step) && Next(s, step).Moved?
    ensures AllStored(Next(s, step).next) && Deaf(Next(s, step).next)
  {
    StepParts(s, step);
    DeafStep(s, step);
    IngestStores(s, step);
    hide Unchecked, PastCheck, PackagerOk, Next, Deaf;
  }

  lemma IngestStores(s: System, step: Step)
    requires Next(s, step).Moved?
    ensures step.Ingest? ==> step.objectId in Next(s, step).next.objects
  {
  }

  lemma {:induction false} DeafRunIsSafe(s: System, steps: seq<Step>)
    requires AllStored(s) && Deaf(s) && AdmissibleRun(s, steps)
    ensures !Run(s, steps).LookupFailed?
    decreases |steps|
  {
    hide AllStored, Deaf, Next, Admissible;
    if steps != [] {
      NoLookupFails(s, steps[0]);
      if Next(s, steps[0]).Moved? {
        StoredStays(s, steps[0]);
        DeafRunIsSafe(Next(s, steps[0]).next, steps[1..]);
      }
    }
  }

  // ----- Guarded pipelines -----

  /** Everything outstanding is stored, every other id is placed once, and `id` is marked or will be
      before it gets past its check. */
  ghost predicate Guarded(s: System, id: string) {
    && AllStored(s) && HandlersOk(s) && id in s.objects
    && (forall x :: x in Unchecked(s) + PastCheck(s) && x != id ==> (Unchecked(s) + PastCheck(s))[x] == 1)
    && (s.objects[id].keepAfterSend || (IsManifest(s, id) && id in Unchecked(s) && id !in PastCheck(s)))
  }

  lemma GuardedAtRestMeansInv(s: System, id: string)
    requires Guarded(s, id) && id !in Places(s)
    ensures Inv(s)
  {
    hide PackagerOk, Unchecked, PastCheck, HandlersOk;
    PlacesAreInTwoParts(s);
  }

  lemma IngestKeepsGuarded(s: System, id: string, x: string, origin: Origin)
    requires Guarded(s, id) && x !in Places(s)
    ensures Guarded(Store(s, x, origin), id) || Inv(Store(s, x, origin))
  {
    if x == id {
      hide Inv, Guarded, Places;
      GuardedAtRestMeansInv(s, id);
      IngestKeepsInvIff(s, x, origin);
    } else {
      OtherIngestKeepsGuarded(s, id, x, origin);
    }
  }

  lemma OtherIngestKeepsGuarded(s: System, id: string, x: string, origin: Origin)
    requires Guarded(s, id) && x !in Places(s) && x != id
    ensures Guarded(Store(s, x, origin), id)
  {
    hide PackagerOk, Unchecked, PastCheck, HandlersOk, Places;
    var t := Store(s, x, origin);
    StoringParts(s, x, origin);
    PlacesAreInTwoParts(s);
    IngestKeepsHandlersOk(s, x, origin);
    forall y | y in Unchecked(t) + PastCheck(t) ensures y in t.objects && (y != id ==> (Unchecked(t) + PastCheck(t))[y] == 1) {
      assert y == x || y in Unchecked(s) + PastCheck(s);
    }
  }

  /** A step that keeps the objects and takes no mark away. */
  lemma MovingKeepsGuarded(s: System, t: System, id: string)
    requires Guarded(s, id) && HandlersOk(t) && t.manifestUrl == s.manifestUrl && t.objects.Keys == s.objects.Keys
    requires t.objects[id].origin == s.objects[id].origin && (s.objects[id].keepAfterSend ==> t.objects[id].keepAfterSend)
    requires t.packager.Some? ==> PackagerOk(t.packager.value)
    requires Unchecked(t) + PastCheck(t) <= Unchecked(s) + PastCheck(s)
    requires t.objects[id].keepAfterSend || (Unchecked(t)[id] == Unchecked(s)[id] && PastCheck(t)[id] <= PastCheck(s)[id])
    ensures Guarded(t, id)
  {
    hide PackagerOk, Unchecked, PastCheck, HandlersOk;
    assert forall x :: (Unchecked(t) + PastCheck(t))[x] <= (Unchecked(s) + PastCheck(s))[x];
  }

  lemma StoreStepKeepsGuarded(s: System, step: Step, id: string)
    requires Guarded(s, id) && OfStoreThread(step) && Next(s, step).Moved?
    ensures Guarded(Next(s, step).next, id)
  {
    hide Guarded, PackagerOk, Unchecked, PastCheck, HandlersOk, Places, StorePlaces, ObjectChecked, AddedHandled;
    GuardedParts(s, id);
    var t := Next(s, step).next;
    StepParts(s, step);
    if step.CheckObject? {
      CheckIsGuarded(s, s.storeDispatching.value.event.objectId, id);
    } else {
      StepKeepsHandlersOk(s, step);
      if step.TakeStoreEvent? {
        TakingParts(s);
      } else if s.storeDispatching.value.Checked? {
        HandledChanges(s, s.storeDispatching.value.objectId, s.storeDispatching.value.isManifest, step.verdict);
        HandlingParts(s, s.storeDispatching.value.objectId, s.storeDispatching.value.isManifest, step.verdict);
      } else {
        IgnoringDeletedParts(s);
      }
      MovingKeepsGuarded(s, t, id);
    }
  }

  lemma GuardedParts(s: System, id: string)
    requires Guarded(s, id)
    ensures HandlersOk(s) && id in s.objects && (s.packager.Some? ==> PackagerOk(s.packager.value))
  {
  }

  /** The object that is about to be deleted is another one, and placed once. */
  lemma DeletedIsNotGuarded(s: System, id: string)
    requires Guarded(s, id) && s.deleting
    ensures s.packager.Some? && s.packager.value.dispatching.Some?
    ensures var x := s.packager.value.dispatching.value; x != id && x in s.objects && x in PastCheck(s) && x !in Unchecked(s)
  {
    hide PackagerOk, Unchecked, PastCheck;
    SlotsAreInTheParts(s);
    var x := s.packager.value.dispatching.value;
    assert x in Unchecked(s) + PastCheck(s) && x != id;
  }

  lemma CheckIsGuarded(s: System, checked: string, id: string)
    requires Guarded(s, id) && s.storeDispatching == Some(Delivering(ObjectAdded(checked))) && ObjectChecked(s, checked).Moved?
    ensures Guarded(ObjectChecked(s, checked).next, id)
  {
    hide PackagerOk, Unchecked, PastCheck, Places, StorePlaces, ObjectChecked, HandlersOk, Guarded;
    var t := ObjectChecked(s, checked).next;
    GuardedParts(s, id);
    SlotsAreInTheParts(s);
    if s.deleting { DeletedIsNotGuarded(s, id); }
    CheckKeepsHandlersOk(s, checked);
    ObjectCheckedPlaces(s, checked);
    CheckingParts(s, checked);
    MarkedOrNot(s, id);
    MovingKeepsGuarded(s, t, id);
  }

  lemma MarkedOrNot(s: System, id: string)
    requires Guarded(s, id)
    ensures s.objects[id].keepAfterSend || IsManifest(s, id)
  {
  }

  lemma PackagerStepKeepsGuarded(s: System, p: PackagerState, step: Step, id: string)
    requires Guarded(s, id) && s.packager == Some(p) && PackagerThreads(s, p, step).Moved? && !step.DeleteCompleted?
    requires step.TransmitterCompletes? ==> CompletedOnce(p, CompleteStep(step.toi))
    ensures Guarded(PackagerThreads(s, p, step).next, id)
  {
    hide Guarded, PackagerOk, Unchecked, PastCheck, HandlersOk, CompletionHandled;
    GuardedParts(s, id);
    PackagerKeepsHandlersOk(s, p, step);
    PackagerThreadParts(s, p, step);
    if step.HandleCompletion? {
      CompletionParts(s, p);
    } else {
      PackagerStepParts(s, p, step);
    }
    MovingKeepsGuarded(s, PackagerThreads(s, p, step).next, id);
  }

  lemma DeletionKeepsGuarded(s: System, p: PackagerState, id: string)
    requires Guarded(s, id) && s.packager == Some(p) && p.dispatching.Some? && s.deleting
    ensures Guarded(CompletedDeleted(s, p), id)
  {
    hide PackagerOk, Unchecked, PastCheck, HandlersOk;
    var x, t := p.dispatching.value, CompletedDeleted(s, p);
    DeletedIsNotGuarded(s, id);
    DeletionParts(s, p);
    assert PackagerThreads(s, p, DeleteCompleted) == Moved(t);
    PackagerKeepsHandlersOk(s, p, DeleteCompleted);
    assert Unchecked(s) + PastCheck(s) == Unchecked(t) + PastCheck(t) + multiset{x};
    forall y | y in Unchecked(t) + PastCheck(t) ensures y in t.objects && (y != id ==> (Unchecked(t) + PastCheck(t))[y] == 1) {
      assert y in Unchecked(s) + PastCheck(s);
    }
  }

  lemma StepKeepsGuarded(s: System, step: Step, id: string)
    requires Guarded(s, id) && Admissible(s, step) && Next(s, step).Moved?
    ensures Guarded(Next(s, step).next, id) || Inv(Next(s, step).next)
  {
    hide Inv, Places, Guarded, ObjectChecked, AddedHandled, CompletionHandled, CompletedDeleted;
    if step.Ingest? {
      IngestKeepsGuarded(s, id, step.objectId, step.origin);
    } else if OfStoreThread(step) {
      StoreStepKeepsGuarded(s, step, id);
    } else if step.DeleteCompleted? {
      DeletionKeepsGuarded(s, s.packager.value, id);
    } else {
      PackagerStepKeepsGuarded(s, s.packager.value, step, id);
    }
  }

  lemma GuardedMeansStored(s: System, id: string)
    requires Guarded(s, id)
    ensures AllStored(s)
  {
  }

  lemma {:induction false} GuardedRunIsSafe(s: System, steps: seq<Step>, id: string)
    requires Guarded(s, id) && AdmissibleRun(s, steps)
    ensures !Run(s, steps).LookupFailed?
    decreases |steps|
  {
    hide Inv, AllStored, Guarded, Next, Admissible;
    if steps != [] {
      GuardedMeansStored(s, id);
      NoLookupFails(s, steps[0]);
      if Next(s, steps[0]).Moved? {
        StepKeepsGuarded(s, steps[0], id);
        var t := Next(s, steps[0]).next;
        if Inv(t) {
          RunKeepsInv(t, steps[1..]);
        } else {
          GuardedRunIsSafe(t, steps[1..], id);
        }
      }
    }
  }

  // ----- The condition -----

  /** The id is outstanding; under the manifest URL it does no harm to be outstanding as long as the
      object has not been checked. */
  predicate Collides(s: System, id: string, origin: Origin) {
    id in if HasManifestUrl(s, origin) then PastCheck(s) else Places(s)
  }

  lemma CollisionDooms(s: System, id: string, origin: Origin)
    requires Running(s) && Collides(s, id, origin)
    ensures Running(Store(s, id, origin)) && Doomed(Store(s, id, origin), id)
  {
    hide Unchecked, PastCheck, PackagerOk, Places;
    PlacesAreInTwoParts(s);
    StoringParts(s, id, origin);
  }

  lemma NoCollisionGuards(s: System, id: string, origin: Origin)
    requires Inv(s) && HasManifestUrl(s, origin) && id !in PastCheck(s)
    ensures Guarded(Store(s, id, origin), id)
  {
    hide Unchecked, PastCheck, PackagerOk, Places;
    PlacesAreInTwoParts(s);
    StoringParts(s, id, origin);
    SlotsAreInTheParts(s);
    var t := Store(s, id, origin);
    forall x | x in Unchecked(t) + PastCheck(t) ensures x in t.objects && (x != id ==> (Unchecked(t) + PastCheck(t))[x] == 1) {
      assert x == id || x in Places(s);
    }
  }

  lemma StoringKeepsAllStored(s: System, id: string, origin: Origin)
    requires Inv(s)
    ensures AllStored(Store(s, id, origin))
  {
    hide Unchecked, PastCheck, PackagerOk, Places;
    PlacesAreInTwoParts(s);
    StoringParts(s, id, origin);
  }

  /** Nobody who listens, nobody who deletes: storing is safe whatever the id. */
  lemma {:induction false} UnsubscribedStoringIsSafe(s: System, id: string, origin: Origin, steps: seq<Step>)
    requires Inv(s) && !s.subscribed && AdmissibleRun(Store(s, id, origin), steps)
    ensures !Run(Store(s, id, origin), steps).LookupFailed?
  {
    StoringKeepsAllStored(s, id, origin);
    hide Placed, AllStored, Run, AdmissibleRun;
    DeafRunIsSafe(Store(s, id, origin), steps);
  }

  /** Storing an object is safe in every continuation exactly when nobody listens to the packager or
      the id does not collide: then no thread ever looks up an object that is not in the store,
      otherwise some run ends that way. */
  lemma {:induction false} StoringIsSafeIff(s: System, id: string, origin: Origin)
    requires Inv(s) && s.packager.Some? && s.hasDestination
    ensures (forall steps :: AdmissibleRun(Store(s, id, origin), steps) ==> !Run(Store(s, id, origin), steps).LookupFailed?)
        <==> !(s.subscribed && Collides(s, id, origin))
  {
    hide Placed, Places, PastCheck, Run, AdmissibleRun, Store, Guarded, Doomed, PackagerOk;
    var t := Store(s, id, origin);
    InvMeansPackagerOk(s);
    if !s.subscribed {
      forall steps | AdmissibleRun(t, steps) ensures !Run(t, steps).LookupFailed? {
        UnsubscribedStoringIsSafe(s, id, origin, steps);
      }
    } else if Collides(s, id, origin) {
      CollisionDooms(s, id, origin);
      var steps := DoomedRunFails(t, id);
    } else if HasManifestUrl(s, origin) {
      NoCollisionGuards(s, id, origin);
      forall steps | AdmissibleRun(t, steps) ensures !Run(t, steps).LookupFailed? {
        GuardedRunIsSafe(t, steps, id);
      }
    } else {
      IngestKeepsInvIff(s, id, origin);
      forall steps | AdmissibleRun(t, steps) ensures !Run(t, steps).LookupFailed? {
        RunKeepsInv(t, steps);
      }
    }
  }
}
