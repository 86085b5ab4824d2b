/** Without new objects the streaming pipeline comes to rest, after a bounded number of steps, with
    a store that holds exactly the objects to be kept. */
module PipelineDrain {
  import opened Basics
  import opened StableOrder
  import opened ObjectListPackager
  import opened StreamingPipeline

  // ----- A measure that every internal step decreases -----

  /** A step of the pipeline itself: not a new object, and a completion only of what is in flight. */
  predicate Internal(s: System, step: Step) {
    && !step.Ingest?
    && (step.TransmitterCompletes? ==>
          s.packager.Some? && s.packager.value.queued && s.packager.value.queuedToi == step.toi)
    && Next(s, step).Moved?
  }

  function QueueWeight(events: seq<StoreEvent>): nat {
    if events == [] then 0 else (if events[0].ObjectAdded? then 13 else 2) + QueueWeight(events[1..])
  }

  function SlotWeight(slot: Option<Delivery>): nat {
    if slot.None? then 0
    else if slot.value.Checked? then 11
    else if slot.value.event.ObjectAdded? then 12 else 1
  }

  function PackagerWeight(p: PackagerState, deleting: bool): int {
    10 * |p.items|
    + (match p.phase case Idle => 0 case Selected(_) => -1 case Sent(_) => -8)
    + (if p.queued then 6 else 0)
    + 5 * |p.events|
    + (if p.dispatching.None? then 0 else if deleting then 3 else 4)
  }

  function Measure(s: System): int {
    QueueWeight(s.storeEvents) + SlotWeight(s.storeDispatching)
    + if s.packager.Some? then PackagerWeight(s.packager.value, s.deleting) else 0
  }

  lemma PackagerWeightIsNatural(p: PackagerState, deleting: bool)
    requires PackagerOk(p)
    ensures 0 <= PackagerWeight(p, deleting)
  {
  }

  lemma MeasureIsNatural(s: System)
    requires s.packager.Some? ==> PackagerOk(s.packager.value)
    ensures 0 <= Measure(s)
  {
    hide PackagerOk, PackagerWeight;
    if s.packager.Some? { PackagerWeightIsNatural(s.packager.value, s.deleting); }
  }

  lemma {:induction false} QueueWeightAppend(events: seq<StoreEvent>, e: StoreEvent)
    ensures QueueWeight(events + [e]) == QueueWeight(events) + if e.ObjectAdded? then 13 else 2
  {
    if events == [] {
      assert events + [e] == [e] && [e][1..] == [];
    } else {
      assert (events + [e])[1..] == events[1..] + [e];
      QueueWeightAppend(events[1..], e);
    }
  }

  lemma PackagerStepDecreases(s: System, p: PackagerState, step: Step)
    requires PackagerOk(p) && s.packager == Some(p) && PackagerThreads(s, p, step).Moved?
    requires step.TransmitterCompletes? ==> p.queued && p.queuedToi == step.toi
    ensures Measure(PackagerThreads(s, p, step).next) < Measure(s)
  {
    hide QueueWeight;
    if step.DeleteCompleted? {
      QueueWeightAppend(s.storeEvents, ObjectDeleted(p.dispatching.value));
    }
  }

  lemma PackagingWeight(s: System, id: string)
    ensures Measure(PackageObject(s, id)) == Measure(s) + 10
  {
    hide QueueWeight, SlotWeight, Insert;
  }

  lemma AddedHandledDecreases(s: System, id: string, isManifest: bool, verdict: Verdict)
    requires s.storeDispatching == Some(Checked(id, isManifest))
    requires s.packager.Some? ==> 0 <= PackagerWeight(s.packager.value, s.deleting)
    requires AddedHandled(s, id, isManifest, verdict).Moved?
    ensures Measure(AddedHandled(s, id, isManifest, verdict).next) < Measure(s)
  {
    hide QueueWeight, PackagerWeight, PackageObject;
    var done := s.(storeDispatching := None);
    assert Measure(done) == Measure(s) - 11;
    PackagingWeight(done, id);
    if verdict.Understood? {
      var t := done.(hasHandler := s.hasHandler || verdict.handlerMade);
      assert Measure(t) == Measure(done);
      PackagingWeight(t, id);
    }
  }

  predicate OfStoreThread(step: Step) {
    step.TakeStoreEvent? || step.CheckObject? || step.HandleStoreEvent?
  }

  lemma StoreStepDecreases(s: System, step: Step)
    requires s.packager.Some? ==> 0 <= PackagerWeight(s.packager.value, s.deleting)
    requires Next(s, step).Moved? && OfStoreThread(step)
    ensures Measure(Next(s, step).next) < Measure(s)
  {
    hide AddedHandled, PackagerWeight;
    if step.HandleStoreEvent? && s.storeDispatching.value.Checked? {
      AddedHandledDecreases(s, s.storeDispatching.value.objectId, s.storeDispatching.value.isManifest, step.verdict);
    }
  }

  /** Every internal step, even one that drops the packager, decreases the measure. */
  lemma StepDecreases(s: System, step: Step)
    requires (s.packager.Some? ==> PackagerOk(s.packager.value)) && Internal(s, step)
    ensures Measure(Next(s, step).next) < Measure(s)
  {
    hide PackagerOk, Measure, PackagerWeight, ObjectChecked, AddedHandled, PackagerThreads;
    if s.packager.Some? { PackagerWeightIsNatural(s.packager.value, s.deleting); }
    if OfStoreThread(step) {
      StoreStepDecreases(s, step);
    } else {
      PackagerStepDecreases(s, s.packager.value, step);
    }
  }

  // ----- Who stays -----

  /** The controller listens to the packager, and what is stored but no longer on its way through
      the pipeline is marked to be kept. */
  ghost predicate RestIsKept(s: System) {
    && s.packager.Some? && s.subscribed
    && forall id :: id in s.objects && id !in Places(s) ==> s.objects[id].keepAfterSend
  }

  /** The objects to be kept: those marked already, and the manifests whose ObjectAdded event is
      still to be handled. */
  function Survivors(s: System): set<string> {
    set id | id in s.objects && (s.objects[id].keepAfterSend || (id in StorePlaces(s) && IsManifest(s, id)))
  }

  /** The two ends of a step, as far as the kept objects are concerned. */
  ghost predicate KeepsWhatItShould(s: System, t: System) {
    RestIsKept(t) && Survivors(t) == Survivors(s)
  }

  lemma MovingWithinThePackager(s: System, q: PackagerState)
    requires RestIsKept(s) && PackagerPlaces(q) == PackagerPlaces(s.packager.value)
    ensures KeepsWhatItShould(s, s.(packager := Some(q)))
  {
    hide PackagerPlaces;
    var t := s.(packager := Some(q));
    assert StorePlaces(t) == StorePlaces(s);
    assert Places(t) == Places(s);
  }

  lemma PackagerStepKeeps(s: System, p: PackagerState, step: Step)
    requires Inv(s) && RestIsKept(s) && s.packager == Some(p) && !OfCompletion(step)
    requires step.TransmitterCompletes? ==> CompletedOnce(p, CompleteStep(step.toi))
    requires PackagerThreads(s, p, step).Moved?
    ensures KeepsWhatItShould(s, PackagerThreads(s, p, step).next)
  {
    hide Inv, PackagerOk, KeepsWhatItShould, RestIsKept, PackagerPlaces, PackagerThreads;
    InvMeansPackagerOk(s);
    PackagerStepMoves(s, p, step);
    MovingWithinThePackager(s, PackagerThreads(s, p, step).next.packager.value);
  }

  lemma LeavingSettles(s: System, t: System, id: string)
    requires RestIsKept(s) && id in s.objects && id !in StorePlaces(s)
    requires Places(s) == Places(t) + multiset{id} && StorePlaces(t) == StorePlaces(s)
    requires t.packager.Some? && t.subscribed && t.manifestUrl == s.manifestUrl
    requires t.objects == if s.objects[id].keepAfterSend then s.objects else s.objects - {id}
    ensures KeepsWhatItShould(s, t)
  {
    hide Places, StorePlaces;
    forall x | x in t.objects && x !in Places(t) ensures t.objects[x].keepAfterSend {
      assert x == id || x !in Places(s);
    }
    forall x ensures x in Survivors(s) <==> x in Survivors(t) {}
  }

  lemma DeletionKeeps(s: System, p: PackagerState)
    requires Inv(s) && RestIsKept(s) && s.packager == Some(p) && p.dispatching.Some? && s.deleting
    ensures KeepsWhatItShould(s, CompletedDeleted(s, p))
  {
    hide Placed, HandlersOk, PackagerOk, Places, StorePlaces, KeepsWhatItShould, RestIsKept, Survivors;
    HandledIdsAreOutstanding(s);
    CompletedDeletedPlaces(s, p);
    RestIsListening(s);
    DeletionIsJustified(s, p);
    LeavingSettles(s, CompletedDeleted(s, p), p.dispatching.value);
  }

  lemma DeletionIsJustified(s: System, p: PackagerState)
    requires HandlersOk(s) && s.packager == Some(p) && p.dispatching.Some? && s.deleting
    ensures p.dispatching.value in s.objects && !s.objects[p.dispatching.value].keepAfterSend
  {
  }

  lemma HandlingKeeps(s: System, p: PackagerState)
    requires Inv(s) && RestIsKept(s) && s.packager == Some(p) && p.dispatching.Some? && !s.deleting
    requires CompletionHandled(s, p).Moved?
    ensures KeepsWhatItShould(s, CompletionHandled(s, p).next)
  {
    hide Placed, HandlersOk, PackagerOk, Places, StorePlaces, KeepsWhatItShould, RestIsKept, Survivors;
    var t := CompletionHandled(s, p).next;
    HandledIdsAreOutstanding(s);
    CompletionHandledPlaces(s, p);
    RestIsListening(s);
    StorePlacesFrame(s, t);
    if t.deleting == s.deleting {
      LeavingSettles(s, t, p.dispatching.value);
    } else {
      SameStorePlacesSettles(s, t);
    }
  }

  lemma CompletionKeeps(s: System, p: PackagerState, step: Step)
    requires Inv(s) && RestIsKept(s) && s.packager == Some(p) && OfCompletion(step) && PackagerThreads(s, p, step).Moved?
    ensures KeepsWhatItShould(s, PackagerThreads(s, p, step).next)
  {
    hide Inv, KeepsWhatItShould, RestIsKept, CompletionHandled, CompletedDeleted;
    if step.DeleteCompleted? {
      DeletionKeeps(s, p);
    } else {
      HandlingKeeps(s, p);
    }
  }

  lemma HandledStorePlaces(s: System, id: string, isManifest: bool)
    requires s.storeDispatching == Some(Checked(id, isManifest))
    ensures StorePlaces(s) == StorePlaces(s.(storeDispatching := None)) + multiset{id}
  {
  }

  /** Survivors and rest after a checked object was handled: if it is the manifest, it was marked. */
  lemma HandlingSettles(s: System, id: string, isManifest: bool, u: System)
    requires HandlersOk(s) && RestIsKept(s) && s.storeDispatching == Some(Checked(id, isManifest)) && id in s.objects
    requires u.objects == s.objects && u.storeEvents == s.storeEvents && u.storeDispatching.None?
    requires u.manifestUrl == s.manifestUrl && u.packager.Some? && u.subscribed
    requires Places(u) == Places(s) || (Places(s) == Places(u) + multiset{id} && isManifest)
    ensures KeepsWhatItShould(s, u)
  {
    hide Places, StorePlaces;
    HandledStorePlaces(s, id, isManifest);
    StorePlacesFrame(s.(storeDispatching := None), u);
    forall x ensures x in Survivors(s) <==> x in Survivors(u) {
      if x != id && x in s.objects {
        assert x in StorePlaces(s) <==> x in StorePlaces(u);
      }
    }
  }

  lemma AddedHandledKeeps(s: System, id: string, isManifest: bool, verdict: Verdict)
    requires Inv(s) && RestIsKept(s) && s.storeDispatching == Some(Checked(id, isManifest))
    requires isManifest && verdict.Rejected? ==> !s.hasHandler
    ensures AddedHandled(s, id, isManifest, verdict).Moved? && KeepsWhatItShould(s, AddedHandled(s, id, isManifest, verdict).next)
  {
    hide Placed, HandlersOk, RestIsKept, Places, StorePlaces, KeepsWhatItShould, Survivors, PackageObject;
    var done := s.(storeDispatching := None);
    AddedHandledKeepsPlaced(s, id, isManifest, verdict);
    HandledIdIsStored(s, id, isManifest);
    RestIsListening(s);
    var t := if isManifest && verdict.Understood? then done.(hasHandler := s.hasHandler || verdict.handlerMade) else done;
    HandingOnKeepsPlaced(s, t, id, isManifest);
    PackagingChanges(t, id);
    HandlingSettles(s, id, isManifest, if isManifest && verdict.Rejected? then done else PackageObject(t, id));
  }

  lemma RestIsListening(s: System)
    requires RestIsKept(s)
    ensures s.packager.Some? && s.subscribed
  {
  }

  lemma HandledIdIsStored(s: System, id: string, isManifest: bool)
    requires Placed(s) && s.storeDispatching == Some(Checked(id, isManifest))
    ensures id in s.objects
  {
    hide Placed;
    HandledIdsAreOutstanding(s);
    assert id in AddedInSlot(s.storeDispatching);
  }

  lemma CheckingKeeps(s: System, id: string)
    requires RestIsKept(s) && s.storeDispatching == Some(Delivering(ObjectAdded(id))) && ObjectChecked(s, id).Moved?
    ensures KeepsWhatItShould(s, ObjectChecked(s, id).next)
  {
    hide Places, StorePlaces, ObjectChecked;
    SlotIsInStorePlaces(s, id);
    ObjectCheckedPlaces(s, id);
    var t := ObjectChecked(s, id).next;
    forall x ensures x in Survivors(s) <==> x in Survivors(t) {}
  }

  lemma SlotIsInStorePlaces(s: System, id: string)
    requires s.storeDispatching == Some(Delivering(ObjectAdded(id)))
    ensures id in StorePlaces(s)
  {
    assert id in AddedInSlot(s.storeDispatching);
  }

  lemma SameStorePlacesSettles(s: System, t: System)
    requires RestIsKept(s) && Places(t) == Places(s) && StorePlaces(t) == StorePlaces(s)
    requires t.objects == s.objects && t.packager == s.packager && t.subscribed == s.subscribed && t.manifestUrl == s.manifestUrl
    ensures KeepsWhatItShould(s, t)
  {
    hide Places, StorePlaces;
  }

  lemma StoreStepKeeps(s: System, step: Step)
    requires Inv(s) && RestIsKept(s) && OfStoreThread(step) && !Drops(s, step) && Next(s, step).Moved?
    ensures KeepsWhatItShould(s, Next(s, step).next)
  {
    hide Placed, HandlersOk, Places, StorePlaces, KeepsWhatItShould, RestIsKept, ObjectChecked, AddedHandled;
    if step.TakeStoreEvent? {
      TakingPlaces(s);
      SameStorePlacesSettles(s, EventTaken(s));
    } else if step.CheckObject? {
      CheckingKeeps(s, s.storeDispatching.value.event.objectId);
    } else if s.storeDispatching.value.Checked? {
      HandledIdIsStored(s, s.storeDispatching.value.objectId, s.storeDispatching.value.isManifest);
      AddedHandledKeeps(s, s.storeDispatching.value.objectId, s.storeDispatching.value.isManifest, step.verdict);
    } else {
      DeletedHandledPlaces(s);
      SameStorePlacesSettles(s, s.(storeDispatching := None));
    }
  }

  lemma StepKeepsSurvivors(s: System, step: Step)
    requires Inv(s) && RestIsKept(s) && Admissible(s, step) && !Drops(s, step) && Next(s, step).Moved? && !step.Ingest?
    ensures KeepsWhatItShould(s, Next(s, step).next)
  {
    hide Inv, Places, KeepsWhatItShould, RestIsKept, ObjectChecked, AddedHandled, PackagerThreads, Drops;
    if OfStoreThread(step) {
      StoreStepKeeps(s, step);
    } else if OfCompletion(step) {
      CompletionKeeps(s, s.packager.value, step);
    } else {
      PackagerStepKeeps(s, s.packager.value, step);
    }
  }

  lemma IngestKeepsRest(s: System, id: string, origin: Origin)
    requires Inv(s) && RestIsKept(s)
    ensures RestIsKept(Store(s, id, origin))
  {
    IngestKeepsInvIff(s, id, origin);
    hide Inv, Places;
    var t := Store(s, id, origin);
    forall x | x in t.objects && x !in Places(t) ensures t.objects[x].keepAfterSend {
      assert x != id && x !in Places(s);
    }
  }

  // ----- Draining -----

  predicate CanStep(s: System, step: Step) {
    Internal(s, step) && !Drops(s, step)
  }

  /** A run of the pipeline alone, in which the packager is not dropped. */
  predicate InternalRun(s: System, steps: seq<Step>)
    decreases |steps|
  {
    steps == [] || (CanStep(s, steps[0]) && InternalRun(Next(s, steps[0]).next, steps[1..]))
  }

  function End(s: System, steps: seq<Step>): System
    requires InternalRun(s, steps)
    decreases |steps|
  {
    if steps == [] then s else End(Next(s, steps[0]).next, steps[1..])
  }

  ghost predicate Quiescent(s: System) {
    forall step :: !CanStep(s, step)
  }

  lemma InternalStepsAreAdmissible(s: System, step: Step)
    requires Internal(s, step)
    ensures Admissible(s, step)
  {
  }

  lemma {:induction false} InternalRunKeeps(s: System, steps: seq<Step>)
    requires Inv(s) && RestIsKept(s) && InternalRun(s, steps)
    ensures var t := End(s, steps);
            && Inv(t) && RestIsKept(t)
            && Survivors(t) == Survivors(s) && t.hasDestination == s.hasDestination
            && |steps| <= Measure(s) - Measure(t)
    decreases |steps|
  {
    hide Inv, RestIsKept, Survivors, Measure, Internal, Drops, Next, Admissible;
    if steps != [] {
      var step := steps[0];
      assert Internal(s, step) && !Drops(s, step);
      InternalMoves(s, step);
      InternalStepsAreAdmissible(s, step);
      StepKeepsSurvivors(s, step);
      InvMeansPackagerOk(s);
      StepDecreases(s, step);
      StepKeepsInv(s, step);
      InternalRunKeeps(Next(s, step).next, steps[1..]);
    }
  }

  lemma DestinationStays(s: System, step: Step)
    requires Next(s, step).Moved?
    ensures Next(s, step).next.hasDestination == s.hasDestination
  {
    hide AddItem, SelectFront, Transmit, PopFront, Complete, BeginDispatch, EndDispatch, IsManifest, Joinable, CanSelect, NewPackager;
  }

  lemma InternalMoves(s: System, step: Step)
    requires Internal(s, step)
    ensures !step.Ingest? && Next(s, step).Moved? && Next(s, step).next.hasDestination == s.hasDestination
  {
    hide Next;
    DestinationStays(s, step);
  }

  lemma QuiescentStoreThread(s: System)
    requires Inv(s) && Quiescent(s)
    ensures s.storeDispatching.None? && s.storeEvents == []
  {
    hide Placed, HandlersOk, Places, PackageObject, ObjectChecked;
    assert !CanStep(s, TakeStoreEvent);
    assert !CanStep(s, CheckObject);
    assert !CanStep(s, HandleStoreEvent(Understood(false)));
    if s.storeDispatching.Some? {
      StoreStepKeepsPlaced(s, CheckObject);
      StoreStepKeepsPlaced(s, HandleStoreEvent(Understood(false)));
      if s.storeDispatching.value.Delivering? && s.storeDispatching.value.event.ObjectAdded? {
        ObjectCheckedKeepsPlaced(s, s.storeDispatching.value.event.objectId);
      }
    }
  }

  predicate PackagerAtRest(p: PackagerState) {
    p.items == [] && p.phase.Idle? && !p.queued && p.events == [] && p.dispatching.None?
  }

  /** A packager with work left has a step that is not blocked. */
  lemma BusyPackagerStep(s: System, p: PackagerState) returns (step: Step)
    requires PackagerOk(p) && s.packager == Some(p) && s.hasDestination && !PackagerAtRest(p)
    ensures !step.Ingest? && !OfStoreThread(step) && !PackagerThreads(s, p, step).Blocked?
    ensures step.TransmitterCompletes? ==> p.queued && p.queuedToi == step.toi
    ensures OfCompletion(step) ==> p.dispatching.Some?
  {
    hide PackagerInv;
    if p.dispatching.Some? {
      step := if s.deleting then DeleteCompleted else HandleCompletion;
    } else if p.events != [] {
      step := TakeCompletion;
    } else {
      PackagerShape(p);
      if p.phase.Sent? {
        step := PopObject;
      } else if p.phase.Selected? {
        step := SendObject(0);
      } else if p.queued {
        step := TransmitterCompletes(p.queuedToi);
      } else {
        step := SelectObject;
      }
    }
  }

  lemma PackagerShape(p: PackagerState)
    requires PackagerOk(p)
    ensures !p.phase.Idle? ==> p.items != []
  {
  }

  lemma BusyPackagerMoves(s: System, p: PackagerState) returns (step: Step)
    requires Inv(s) && s.packager == Some(p) && s.hasDestination && !PackagerAtRest(p)
    ensures CanStep(s, step)
  {
    hide Placed, HandlersOk, PackagerOk, PackagerThreads;
    InvMeansPackagerOk(s);
    step := BusyPackagerStep(s, p);
    PackagerStepsKeepPlaced(s, p, step);
  }

  lemma QuiescentPackager(s: System, p: PackagerState)
    requires Inv(s) && Quiescent(s) && s.packager == Some(p) && s.hasDestination
    ensures PackagerAtRest(p)
  {
    hide Inv, CanStep;
    if !PackagerAtRest(p) {
      var step := BusyPackagerMoves(s, p);
    }
  }

  lemma EmptyPipelineHasNoPlaces(s: System, p: PackagerState)
    requires s.storeDispatching.None? && s.storeEvents == [] && s.packager == Some(p)
    requires PackagerAtRest(p)
    ensures Places(s) == multiset{}
  {
  }

  /** A pipeline that can take no further step is empty and its store holds only kept objects. */
  lemma QuiescentStoreIsKept(s: System)
    requires Inv(s) && RestIsKept(s) && Quiescent(s) && s.hasDestination
    ensures Places(s) == multiset{}
    ensures s.objects.Keys == Survivors(s)
    ensures forall id :: id in s.objects ==> s.objects[id].keepAfterSend
  {
    QuiescentStoreThread(s);
    QuiescentPackager(s, s.packager.value);
    EmptyPipelineHasNoPlaces(s, s.packager.value);
    hide Inv, Places, StorePlaces;
  }

  /** Draining: however the threads interleave, without new objects the pipeline takes no more
      steps than the measure says, and where it stops the store holds exactly the survivors. */
  lemma {:induction false} PipelineDrains(s: System, steps: seq<Step>)
    requires Inv(s) && RestIsKept(s) && s.hasDestination
    requires InternalRun(s, steps)
    ensures |steps| <= Measure(s)
    ensures Quiescent(End(s, steps)) ==>
              var t := End(s, steps);
              && Places(t) == multiset{}
              && t.objects.Keys == Survivors(s)
              && forall id :: id in t.objects ==> t.objects[id].keepAfterSend
  {
    hide Inv, RestIsKept, Measure, Places, Quiescent, Survivors;
    InternalRunKeeps(s, steps);
    InvMeansPackagerOk(End(s, steps));
    MeasureIsNatural(End(s, steps));
    if Quiescent(End(s, steps)) {
      QuiescentStoreIsKept(End(s, steps));
    }
  }

  /** There is always such a run to the end. */
  lemma {:induction false} SomeRunDrains(s: System) returns (steps: seq<Step>)
    requires Inv(s) && RestIsKept(s) && s.hasDestination
    ensures InternalRun(s, steps) && Quiescent(End(s, steps))
    decreases Measure(s)
  {
    hide Inv, RestIsKept, Measure, Internal, Drops, Next, Admissible, Survivors;
    if Quiescent(s) {
      steps := [];
    } else {
      var step :| CanStep(s, step);
      InvMeansPackagerOk(s);
      MeasureIsNatural(s);
      InternalMoves(s, step);
      InternalStepsAreAdmissible(s, step);
      StepKeepsSurvivors(s, step);
      StepDecreases(s, step);
      StepKeepsInv(s, step);
      var rest := SomeRunDrains(Next(s, step).next);
      steps := [step] + rest;
      assert steps[1..] == rest;
    }
  }

  // ----- From the start of a session -----

  predicate NoDropRun(s: System, steps: seq<Step>)
    decreases |steps|
  {
    steps == [] || (!Drops(s, steps[0]) && (Next(s, steps[0]).Moved? ==> NoDropRun(Next(s, steps[0]).next, steps[1..])))
  }

  lemma {:induction false} RunKeepsRest(s: System, steps: seq<Step>)
    requires Inv(s) && RestIsKept(s) && AdmissibleRun(s, steps) && NoDropRun(s, steps) && Run(s, steps).Moved?
    ensures Inv(Run(s, steps).next) && RestIsKept(Run(s, steps).next)
    ensures Run(s, steps).next.hasDestination == s.hasDestination
    decreases |steps|
  {
    hide Inv, RestIsKept, Survivors, Drops, Next, Admissible;
    if steps != [] {
      var step := steps[0];
      StepKeepsInv(s, step);
      DestinationStays(s, step);
      if step.Ingest? {
        IngestKeepsRest(s, step.objectId, step.origin);
        IngestMoves(s, step);
      } else {
        StepKeepsSurvivors(s, step);
      }
      RunKeepsRest(Next(s, step).next, steps[1..]);
    }
  }

  lemma IngestMoves(s: System, step: Step)
    requires step.Ingest?
    ensures Next(s, step) == Moved(Store(s, step.objectId, step.origin))
  {
  }

  /** Whatever a session did before, if its packager was never dropped then everything stored is
      outstanding or to be kept; and once nothing new is stored, the pipeline stops after a bounded
      number of steps with exactly the survivors in the store. */
  lemma {:induction false} SessionDrains(manifestUrl: string, before: seq<Step>, after: seq<Step>)
    requires AdmissibleRun(Initial(manifestUrl, true), before) && NoDropRun(Initial(manifestUrl, true), before)
    requires Run(Initial(manifestUrl, true), before).Moved?
    requires InternalRun(Run(Initial(manifestUrl, true), before).next, after)
    ensures var s := Run(Initial(manifestUrl, true), before).next;
            var t := End(s, after);
            && RestIsKept(s)
            && |after| <= Measure(s)
            && (Quiescent(t) ==>
                  && t.objects.Keys == Survivors(s)
                  && forall id :: id in t.objects ==> t.objects[id].keepAfterSend)
  {
    hide Inv, RestIsKept, Drops, Next, Admissible, Places, Measure, Quiescent, Survivors;
    InitialInv(manifestUrl, true);
    InitialRest(manifestUrl);
    RunKeepsRest(Initial(manifestUrl, true), before);
    PipelineDrains(Run(Initial(manifestUrl, true), before).next, after);
  }

  lemma InitialRest(manifestUrl: string)
    ensures RestIsKept(Initial(manifestUrl, true)) && Initial(manifestUrl, true).hasDestination
  {
  }
}
