/** What the invariant of the streaming pipeline gives: safe lookups, one place for every object,
    and transmission exactly once and in order. */
module PipelineResults {
  import opened Basics
  import opened StableOrder
  import opened ObjectListPackager
  import opened StreamingPipeline

  // ----- Safety over whole runs -----

  datatype Place = AwaitingAdded | HandlingAdded | InList | InTheAir | AwaitingCompleted | HandlingCompleted

  function IdsAt(s: System, place: Place): seq<string> {
    match place
    case AwaitingAdded => AddedIds(s.storeEvents)
    case HandlingAdded => AddedInSlot(s.storeDispatching)
    case _ => if s.packager.None? then [] else IdsInPackager(s.packager.value, place)
  }

  function IdsInPackager(p: PackagerState, place: Place): seq<string> {
    match place
    case InList => ItemIds(p.items)
    case InTheAir => Airborne(p)
    case AwaitingCompleted => p.events
    case HandlingCompleted => Slot(p.dispatching)
    case _ => []
  }

  function TimesAt(s: System, id: string, place: Place): nat {
    multiset(IdsAt(s, place))[id]
  }

  lemma OccurrencesInPackager(p: PackagerState, id: string)
    ensures PackagerPlaces(p)[id]
         == multiset(IdsInPackager(p, InList))[id] + multiset(IdsInPackager(p, InTheAir))[id]
            + multiset(IdsInPackager(p, AwaitingCompleted))[id] + multiset(IdsInPackager(p, HandlingCompleted))[id]
  {
    hide ItemIds, Airborne, Slot;
  }

  lemma OccurrencesAddUp(s: System, id: string)
    ensures Places(s)[id]
         == TimesAt(s, id, AwaitingAdded) + TimesAt(s, id, HandlingAdded) + TimesAt(s, id, InList)
            + TimesAt(s, id, InTheAir) + TimesAt(s, id, AwaitingCompleted) + TimesAt(s, id, HandlingCompleted)
  {
    hide AddedIds, AddedInSlot, PackagerPlaces, IdsInPackager;
    if s.packager.Some? {
      OccurrencesInPackager(s.packager.value, id);
    }
  }

  ghost predicate InExactlyOnePlace(s: System, id: string) {
    exists place :: TimesAt(s, id, place) == 1 && forall other :: other != place ==> id !in IdsAt(s, other)
  }

  lemma OutstandingObjectHasOnePlace(s: System, id: string)
    requires Inv(s) && id in Places(s)
    ensures id in s.objects && InExactlyOnePlace(s, id)
  {
    hide IdsAt, Places, PackagerOk;
    OccurrencesAddUp(s, id);
    assert Places(s)[id] == 1;
    var place :| TimesAt(s, id, place) == 1;
    forall other | other != place ensures id !in IdsAt(s, other) {
      assert TimesAt(s, id, other) == 0;
    }
  }

  /** In every reachable state, with or without dropped packagers, every outstanding object is in
      exactly one place and is stored, and no step looks up an object that is not stored. */
  lemma ReachableStatesAreSafe(manifestUrl: string, hasDestination: bool, steps: seq<Step>, next: Step)
    requires AdmissibleRun(Initial(manifestUrl, hasDestination), steps)
    requires Run(Initial(manifestUrl, hasDestination), steps).Moved?
    ensures var s := Run(Initial(manifestUrl, hasDestination), steps).next;
            && (forall id :: id in Places(s) ==> id in s.objects && InExactlyOnePlace(s, id))
            && (Admissible(s, next) ==> !Next(s, next).LookupFailed?)
  {
    hide Inv, Next, Admissible, InExactlyOnePlace, Places;
    InitialInv(manifestUrl, hasDestination);
    RunKeepsInv(Initial(manifestUrl, hasDestination), steps);
    var s := Run(Initial(manifestUrl, hasDestination), steps).next;
    forall id | id in Places(s) ensures id in s.objects && InExactlyOnePlace(s, id) {
      OutstandingObjectHasOnePlace(s, id);
    }
    if Admissible(s, next) {
      StepKeepsInv(s, next);
    }
  }

  // ----- Exactly once and in order -----

  function ToSend(p: PackagerState): seq<string> {
    ItemIds(if p.phase.Sent? && p.items != [] then p.items[1..] else p.items)
  }

  /** Every id ever accepted: those transmitted, then those waiting, first to last. */
  function OrderLine(s: System): seq<string> {
    (if s.packager.Some? then s.packager.value.sent + ToSend(s.packager.value) else [])
    + AddedInSlot(s.storeDispatching) + AddedIds(s.storeEvents)
  }

  function Ingested(steps: seq<Step>): seq<string> {
    if steps == [] then []
    else (if steps[0].Ingest? then [steps[0].objectId] else []) + Ingested(steps[1..])
  }

  predicate NoRefusalRun(s: System, steps: seq<Step>)
    decreases |steps|
  {
    steps == [] || (!Refuses(s, steps[0]) && (Next(s, steps[0]).Moved? ==> NoRefusalRun(Next(s, steps[0]).next, steps[1..])))
  }

  lemma PackagerThreadsKeepLine(p: PackagerState, toi: nat)
    requires PackagerOk(p)
    ensures CanSelect(p) ==> SelectFront(p).sent + ToSend(SelectFront(p)) == p.sent + ToSend(p)
    ensures p.phase.Selected? ==> Transmit(p, toi).sent + ToSend(Transmit(p, toi)) == p.sent + ToSend(p)
    ensures p.phase.Sent? ==> PopFront(p).sent + ToSend(PopFront(p)) == p.sent + ToSend(p)
    ensures p.phase.Idle? ==> Complete(p, toi).sent + ToSend(Complete(p, toi)) == p.sent + ToSend(p)
  {
  }

  lemma AddExtendsLine(p: PackagerState, id: string)
    requires PackagerOk(p)
    ensures var q := AddItem(p, PackageItem(id, None)); q.sent + ToSend(q) == p.sent + ToSend(p) + [id]
  {
  }

  lemma IngestExtendsLine(s: System, id: string, origin: Origin)
    ensures OrderLine(Store(s, id, origin)) == OrderLine(s) + [id]
  {
    AddedIdsAppend(s.storeEvents, ObjectAdded(id));
  }

  lemma TakingKeepsLine(s: System)
    requires s.storeDispatching.None? && s.storeEvents != []
    ensures OrderLine(EventTaken(s)) == OrderLine(s)
  {
    hide ToSend;
    assert AddedIds(s.storeEvents) == AddedId(s.storeEvents[0]) + AddedIds(s.storeEvents[1..]);
  }

  lemma CheckingKeepsLine(s: System, id: string)
    requires s.storeDispatching == Some(Delivering(ObjectAdded(id))) && ObjectChecked(s, id).Moved?
    ensures OrderLine(ObjectChecked(s, id).next) == OrderLine(s)
  {
    hide ToSend, AddedIds;
  }

  lemma HandingOnKeepsLine(s: System, id: string, isManifest: bool, t: System)
    requires s.packager.Some? ==> PackagerOk(s.packager.value)
    requires s.storeDispatching == Some(Checked(id, isManifest))
    requires t.storeDispatching == None && t.storeEvents == s.storeEvents && t.packager == s.packager
    ensures OrderLine(PackageObject(t, id)) == OrderLine(s)
  {
    hide ToSend, PackagerOk, AddedIds;
    if s.packager.Some? {
      AddExtendsLine(s.packager.value, id);
    } else {
      NewPackagerLine(id);
    }
  }

  lemma NewPackagerLine(id: string)
    ensures var q := AddItem(NewPackager([]), PackageItem(id, None)); q.sent + ToSend(q) == [id]
  {
  }

  lemma HandlingKeepsLine(s: System, verdict: Verdict)
    requires s.packager.Some? ==> PackagerOk(s.packager.value)
    requires Next(s, HandleStoreEvent(verdict)).Moved? && !Refuses(s, HandleStoreEvent(verdict))
    ensures OrderLine(Next(s, HandleStoreEvent(verdict)).next) == OrderLine(s)
  {
    hide PackagerOk, OrderLine, PackageObject;
    if s.storeDispatching.value.Checked? {
      var id, isManifest := s.storeDispatching.value.objectId, s.storeDispatching.value.isManifest;
      var done := s.(storeDispatching := None);
      HandingOnKeepsLine(s, id, isManifest, done);
      if isManifest {
        HandingOnKeepsLine(s, id, isManifest, done.(hasHandler := s.hasHandler || verdict.handlerMade));
      }
    } else {
      DeletedHandledLine(s);
    }
  }

  lemma DeletedHandledLine(s: System)
    requires s.storeDispatching.Some? && s.storeDispatching.value.Delivering? && s.storeDispatching.value.event.ObjectDeleted?
    ensures OrderLine(s.(storeDispatching := None)) == OrderLine(s)
  {
  }

  /** A refused manifest leaves the line, and takes a dropped packager's part of it along. */
  lemma RefusalShortensLine(s: System, step: Step)
    requires Refuses(s, step) && Next(s, step).Moved?
    ensures |OrderLine(Next(s, step).next)| < |OrderLine(s)|
  {
    hide AddedIds, ToSend;
  }

  lemma CompletionKeepsLine(s: System, p: PackagerState, t: System)
    requires s.packager == Some(p) && p.dispatching.Some?
    requires CompletionHandled(s, p) == Moved(t) || CompletedDeleted(s, p) == t
    ensures OrderLine(t) == OrderLine(s)
  {
    hide AddedIds, ItemIds;
    var q := EndDispatch(p);
    assert q.sent == p.sent && ToSend(q) == ToSend(p);
    AddedIdsAppend(s.storeEvents, ObjectDeleted(p.dispatching.value));
    assert AddedIds(t.storeEvents) == AddedIds(s.storeEvents);
  }

  lemma PackagerStepKeepsLine(s: System, p: PackagerState, step: Step)
    requires PackagerOk(p) && s.packager == Some(p) && PackagerThreads(s, p, step).Moved?
    ensures OrderLine(PackagerThreads(s, p, step).next) == OrderLine(s)
  {
    hide PackagerOk, ToSend, AddedIds, CompletionHandled, CompletedDeleted;
    PackagerThreadsKeepLine(p, if step.SendObject? || step.TransmitterCompletes? then step.toi else 0);
    if OfCompletion(step) {
      CompletionKeepsLine(s, p, PackagerThreads(s, p, step).next);
    } else if step.TakeCompletion? {
      BeginDispatchKeepsLine(p);
    }
  }

  lemma BeginDispatchKeepsLine(p: PackagerState)
    requires p.events != [] && p.dispatching.None?
    ensures BeginDispatch(p).sent + ToSend(BeginDispatch(p)) == p.sent + ToSend(p)
  {
  }

  /** The line grows by what is stored, unless a manifest is refused. */
  lemma StepKeepsLine(s: System, step: Step)
    requires Inv(s) && Admissible(s, step) && !Refuses(s, step) && Next(s, step).Moved?
    ensures OrderLine(Next(s, step).next) == OrderLine(s) + Ingested([step])
  {
    hide Inv, Admissible, OrderLine, PackagerThreads, ObjectChecked, AddedHandled, Refuses;
    InvMeansPackagerOk(s);
    assert [step][0] == step && Ingested([step][1..]) == [];
    match step
    case Ingest(id, origin) => IngestExtendsLine(s, id, origin);
    case TakeStoreEvent => TakingKeepsLine(s);
    case CheckObject => CheckingKeepsLine(s, s.storeDispatching.value.event.objectId);
    case HandleStoreEvent(verdict) => HandlingKeepsLine(s, verdict);
    case _ => PackagerStepKeepsLine(s, s.packager.value, step);
  }

  lemma NothingIngested()
    ensures Ingested([]) == []
  {
  }

  lemma IngestedFromTheFront(steps: seq<Step>)
    requires steps != []
    ensures Ingested(steps) == Ingested([steps[0]]) + Ingested(steps[1..])
  {
    assert [steps[0]][1..] == [];
  }

  lemma {:induction false} RunKeepsLineIff(s: System, steps: seq<Step>)
    requires Inv(s) && AdmissibleRun(s, steps) && Run(s, steps).Moved?
    ensures NoRefusalRun(s, steps) ==> OrderLine(Run(s, steps).next) == OrderLine(s) + Ingested(steps)
    ensures |OrderLine(Run(s, steps).next)| <= |OrderLine(s)| + |Ingested(steps)|
    ensures !NoRefusalRun(s, steps) ==> |OrderLine(Run(s, steps).next)| < |OrderLine(s)| + |Ingested(steps)|
    decreases |steps|
  {
    hide Inv, OrderLine, Next, Admissible, Refuses, Ingested;
    if steps == [] {
      NothingIngested();
    } else {
      IngestedFromTheFront(steps);
      StepKeepsInv(s, steps[0]);
      if Refuses(s, steps[0]) {
        RefusalShortensLine(s, steps[0]);
      } else {
        StepKeepsLine(s, steps[0]);
      }
      RunKeepsLineIff(Next(s, steps[0]).next, steps[1..]);
    }
  }

  /** Objects are transmitted in the order in which they were stored, each at most once, and those
      not transmitted yet are still in line: nothing is skipped, repeated or overtaken, exactly when
      no manifest was refused on the way. */
  lemma TransmittedOnceAndInOrderIff(manifestUrl: string, hasDestination: bool, steps: seq<Step>)
    requires AdmissibleRun(Initial(manifestUrl, hasDestination), steps) && Run(Initial(manifestUrl, hasDestination), steps).Moved?
    ensures (OrderLine(Run(Initial(manifestUrl, hasDestination), steps).next) == Ingested(steps))
         == NoRefusalRun(Initial(manifestUrl, hasDestination), steps)
  {
    hide Inv, Next, Admissible, NoRefusalRun;
    InitialInv(manifestUrl, hasDestination);
    RunKeepsLineIff(Initial(manifestUrl, hasDestination), steps);
    assert OrderLine(Initial(manifestUrl, hasDestination)) == [];
  }

  /** Idle, and nothing sent so far. */
  predicate NothingSent(s: System) {
    s.packager.Some? ==> s.packager.value.phase.Idle? && s.packager.value.sent == []
  }

  lemma PackagingSendsNothing(s: System, id: string)
    requires NothingSent(s)
    ensures NothingSent(PackageObject(s, id)) && PackageObject(s, id).hasDestination == s.hasDestination
  {
    hide Insert, StableSort;
  }

  lemma HandlingSendsNothing(s: System, id: string, isManifest: bool, verdict: Verdict)
    requires !s.hasDestination && NothingSent(s) && AddedHandled(s, id, isManifest, verdict).Moved?
    ensures var t := AddedHandled(s, id, isManifest, verdict).next; !t.hasDestination && NothingSent(t)
  {
    hide PackageObject;
    var done := s.(storeDispatching := None);
    PackagingSendsNothing(done, id);
    PackagingSendsNothing(done.(hasHandler := s.hasHandler || (verdict.Understood? && verdict.handlerMade)), id);
  }

  lemma PackagerSendsNothing(s: System, p: PackagerState, step: Step)
    requires !s.hasDestination && NothingSent(s) && s.packager == Some(p) && PackagerThreads(s, p, step).Moved?
    ensures var t := PackagerThreads(s, p, step).next; !t.hasDestination && NothingSent(t)
  {
  }

  lemma StepSendsNothing(s: System, step: Step)
    requires !s.hasDestination && NothingSent(s) && Next(s, step).Moved?
    ensures !Next(s, step).next.hasDestination && NothingSent(Next(s, step).next)
  {
    hide AddedHandled, PackagerThreads;
    if step.HandleStoreEvent? && s.storeDispatching.value.Checked? {
      HandlingSendsNothing(s, s.storeDispatching.value.objectId, s.storeDispatching.value.isManifest, step.verdict);
    } else if s.packager.Some? && PackagerThreads(s, s.packager.value, step).Moved? {
      PackagerSendsNothing(s, s.packager.value, step);
    }
  }

  lemma {:induction false} RunSendsNothing(s: System, steps: seq<Step>)
    requires !s.hasDestination && NothingSent(s) && Run(s, steps).Moved?
    ensures NothingSent(Run(s, steps).next)
    decreases |steps|
  {
    hide Next, NothingSent;
    if steps != [] {
      StepSendsNothing(s, steps[0]);
      RunSendsNothing(Next(s, steps[0]).next, steps[1..]);
    }
  }

  /** Without a destination address nothing is ever transmitted. */
  lemma NothingIsSentWithoutDestination(manifestUrl: string, steps: seq<Step>)
    requires Run(Initial(manifestUrl, false), steps).Moved?
    ensures var s := Run(Initial(manifestUrl, false), steps).next; s.packager.Some? ==> s.packager.value.sent == []
  {
    RunSendsNothing(Initial(manifestUrl, false), steps);
  }
}
