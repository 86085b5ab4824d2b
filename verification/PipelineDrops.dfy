/** Whole sessions: what the streaming pipeline has done when it comes to rest, and what a refused
    manifest update takes away from that. */
module PipelineDrops {
  import opened Basics
  import opened StableOrder
  import opened ObjectListPackager
  import opened StreamingPipeline
  import opened PipelineResults
  import opened PipelineDrain

  // ----- The subscription to the packager -----

  /** The controller listens to its packager; a deletion is decided on only while a completion is
      being delivered. */
  predicate Listening(s: System) {
    s.subscribed && s.packager.Some? && (s.deleting ==> s.packager.value.dispatching.Some?)
  }

  predicate Deaf(s: System) {
    !s.subscribed && !s.deleting
  }

  lemma ListeningStep(s: System, step: Step)
    requires Listening(s) && Next(s, step).Moved?
    ensures if Drops(s, step) then Deaf(Next(s, step).next) else Listening(Next(s, step).next)
  {
    hide Insert;
  }

  lemma DeafStep(s: System, step: Step)
    requires Deaf(s) && Next(s, step).Moved?
    ensures Deaf(Next(s, step).next) && s.objects.Keys <= Next(s, step).next.objects.Keys
  {
    hide AddItem;
  }

  /** A manifest is handled for which the factory has made a handler. */
  predicate MakesHandler(s: System, step: Step) {
    && step == HandleStoreEvent(Understood(true))
    && s.storeDispatching.Some? && s.storeDispatching.value.Checked? && s.storeDispatching.value.isManifest
  }

  predicate SomeHandlerMade(s: System, steps: seq<Step>)
    decreases |steps|
  {
    && steps != []
    && (MakesHandler(s, steps[0])
        || (Next(s, steps[0]).Moved? && SomeHandlerMade(Next(s, steps[0]).next, steps[1..])))
  }

  lemma StepMakesHandlerIff(s: System, step: Step)
    requires Next(s, step).Moved?
    ensures Next(s, step).next.hasHandler == (s.hasHandler || MakesHandler(s, step))
  {
    hide AddedHandled;
    if step.HandleStoreEvent? && s.storeDispatching.value.Checked? {
      HandlingMakesHandlerIff(s, s.storeDispatching.value.objectId, s.storeDispatching.value.isManifest, step.verdict);
    }
  }

  lemma {:induction false} RunMakesHandlerIff(s: System, steps: seq<Step>)
    requires Run(s, steps).Moved?
    ensures Run(s, steps).next.hasHandler == (s.hasHandler || SomeHandlerMade(s, steps))
    decreases |steps|
  {
    hide Next, MakesHandler;
    if steps != [] {
      StepMakesHandlerIff(s, steps[0]);
      RunMakesHandlerIff(Next(s, steps[0]).next, steps[1..]);
    }
  }

  /** A session has a manifest handler exactly when the factory made one on the way: an update of a
      known manifest does not lose it, nor does a refusal. */
  lemma HandlerIsThereIff(manifestUrl: string, hasDestination: bool, steps: seq<Step>)
    requires Run(Initial(manifestUrl, hasDestination), steps).Moved?
    ensures Run(Initial(manifestUrl, hasDestination), steps).next.hasHandler
         == SomeHandlerMade(Initial(manifestUrl, hasDestination), steps)
  {
    RunMakesHandlerIff(Initial(manifestUrl, hasDestination), steps);
  }

  lemma HandlingMakesHandlerIff(s: System, id: string, isManifest: bool, verdict: Verdict)
    requires AddedHandled(s, id, isManifest, verdict).Moved?
    ensures AddedHandled(s, id, isManifest, verdict).next.hasHandler == (s.hasHandler || (isManifest && verdict == Understood(true)))
  {
    hide AddItem;
  }

  /** A refused update has to wait exactly while the worker is inside its send window or a completion
      is being delivered. */
  lemma RefusalWaitsIff(s: System, id: string)
    requires s.storeDispatching == Some(Checked(id, true)) && id in s.objects && s.hasHandler
    ensures Next(s, HandleStoreEvent(Rejected)).Blocked?
        == (s.packager.Some? && (s.packager.value.phase != Idle || s.packager.value.dispatching.Some?))
  {
  }

  /** After a packager has been dropped its replacement is not subscribed to: from then on no
      object is ever deleted, whatever happens. */
  lemma {:induction false} AfterADropNothingIsDeleted(s: System, steps: seq<Step>)
    requires Deaf(s) && Run(s, steps).Moved?
    ensures Deaf(Run(s, steps).next) && s.objects.Keys <= Run(s, steps).next.objects.Keys
    decreases |steps|
  {
    hide Next, Deaf;
    if steps != [] {
      DeafStep(s, steps[0]);
      AfterADropNothingIsDeleted(Next(s, steps[0]).next, steps[1..]);
    }
  }

  /** The controller still listens to its packager at the end of a run exactly when no known
      manifest was refused an update on the way. */
  lemma {:induction false} SubscribedIffNeverDropped(s: System, steps: seq<Step>)
    requires Listening(s) && Run(s, steps).Moved?
    ensures Run(s, steps).next.subscribed == NoDropRun(s, steps)
    ensures if Run(s, steps).next.subscribed then Listening(Run(s, steps).next) else Deaf(Run(s, steps).next)
    decreases |steps|
  {
    hide Next, Drops;
    if steps != [] {
      ListeningStep(s, steps[0]);
      if Drops(s, steps[0]) {
        AfterADropNothingIsDeleted(Next(s, steps[0]).next, steps[1..]);
      } else {
        SubscribedIffNeverDropped(Next(s, steps[0]).next, steps[1..]);
      }
    }
  }

  lemma UnkeptObjectStep(s: System, step: Step, id: string)
    requires Deaf(s) && id in s.objects && !IsManifest(s, id) && Next(s, step).Moved?
    requires !(step.Ingest? && step.objectId == id)
    ensures var t := Next(s, step).next;
            t.manifestUrl == s.manifestUrl && id in t.objects && t.objects[id] == s.objects[id]
  {
    hide AddItem, NewPackager, IsManifest;
  }

  lemma {:induction false} UnkeptObjectStays(s: System, id: string, steps: seq<Step>)
    requires Deaf(s) && id in s.objects && !IsManifest(s, id) && Run(s, steps).Moved?
    requires forall i :: 0 <= i < |steps| ==> !(steps[i].Ingest? && steps[i].objectId == id)
    ensures id in Run(s, steps).next.objects && Run(s, steps).next.objects[id] == s.objects[id]
    decreases |steps|
  {
    hide Next, Deaf;
    if steps != [] {
      DeafStep(s, steps[0]);
      UnkeptObjectStep(s, steps[0], id);
      UnkeptObjectStays(Next(s, steps[0]).next, id, steps[1..]);
    }
  }

  /** After a session with a refused update, an object that is no manifest is stored for good,
      unmarked: the drain to a store of kept objects is lost with the first drop. */
  lemma {:induction false} DroppedSessionNeverDrains(manifestUrl: string, before: seq<Step>, id: string, origin: Origin, after: seq<Step>)
    requires Run(Initial(manifestUrl, true), before).Moved? && !NoDropRun(Initial(manifestUrl, true), before)
    requires var s := Run(Initial(manifestUrl, true), before).next;
             !HasManifestUrl(s, origin) && Run(Store(s, id, origin), after).Moved?
    requires forall i :: 0 <= i < |after| ==> !(after[i].Ingest? && after[i].objectId == id)
    ensures var t := Run(Store(Run(Initial(manifestUrl, true), before).next, id, origin), after).next;
            id in t.objects && !t.objects[id].keepAfterSend
  {
    hide Run, NoDropRun;
    SubscribedIffNeverDropped(Initial(manifestUrl, true), before);
    UnkeptObjectStays(Store(Run(Initial(manifestUrl, true), before).next, id, origin), id, after);
  }

  /** A manifest was understood and is queued. */
  function WithManifest(manifestUrl: string, id: string, origin: Origin): System {
    System(map[id := Metadata(origin, true)], [], None, Some(AddItem(NewPackager([]), PackageItem(id, None))),
           false, true, true, manifestUrl, true)
  }

  function Arrival(id: string, origin: Origin, verdict: Verdict): seq<Step> {
    [Ingest(id, origin), TakeStoreEvent, CheckObject, HandleStoreEvent(verdict)]
  }

  /** A manifest that arrived at an idle store thread has been looked up and marked. */
  function Arrived(s: System, id: string, origin: Origin): System {
    s.(objects := s.objects[id := Metadata(origin, true)], storeEvents := [], storeDispatching := Some(Checked(id, true)))
  }

  lemma FirstStep(s: System, steps: seq<Step>, t: System)
    requires steps != [] && Admissible(s, steps[0]) && Next(s, steps[0]) == Moved(t)
    ensures Run(s, steps) == Run(t, steps[1..]) && AdmissibleRun(s, steps) == AdmissibleRun(t, steps[1..])
  {
  }

  lemma ArrivalRuns(s: System, id: string, origin: Origin, verdict: Verdict, rest: seq<Step>)
    requires s.storeEvents == [] && s.storeDispatching.None? && id !in Places(s) && HasManifestUrl(s, origin)
    requires AddedHandled(Arrived(s, id, origin), id, true, verdict).Moved?
    ensures var t := AddedHandled(Arrived(s, id, origin), id, true, verdict).next;
            && Run(s, Arrival(id, origin, verdict) + rest) == Run(t, rest)
            && AdmissibleRun(s, Arrival(id, origin, verdict) + rest) == AdmissibleRun(t, rest)
  {
    hide Places, AddedHandled, Run, AdmissibleRun;
    var steps := Arrival(id, origin, verdict) + rest;
    assert steps[1..][1..][1..][1..] == rest;
    var stored := Store(s, id, origin);
    assert stored.storeEvents == [ObjectAdded(id)] && [ObjectAdded(id)][1..] == [];
    var taken := EventTaken(stored);
    assert taken.objects[id := Metadata(origin, true)] == s.objects[id := Metadata(origin, true)];
    FirstStep(s, steps, stored);
    FirstStep(stored, steps[1..], taken);
    FirstStep(taken, steps[1..][1..], Arrived(s, id, origin));
    FirstStep(Arrived(s, id, origin), steps[1..][1..][1..], AddedHandled(Arrived(s, id, origin), id, true, verdict).next);
  }

  lemma RunOfNothing(s: System)
    ensures Run(s, []) == Moved(s) && AdmissibleRun(s, [])
  {
  }

  lemma WithManifestPlaces(manifestUrl: string, id: string, origin: Origin)
    ensures Places(WithManifest(manifestUrl, id, origin)) == multiset{id}
  {
    var p := AddItem(NewPackager([]), PackageItem(id, None));
    assert p.items == [PackageItem(id, None)];
    assert ItemIds(p.items) == [id];
  }

  lemma ManifestUnderstood(manifestUrl: string, id: string, origin: Origin)
    ensures AddedHandled(Arrived(Initial(manifestUrl, true), id, origin), id, true, Understood(true))
         == Moved(WithManifest(manifestUrl, id, origin))
  {
    hide AddItem;
  }

  lemma UpdateRefused(manifestUrl: string, first: string, second: string, origin: Origin)
    ensures var outcome := AddedHandled(Arrived(WithManifest(manifestUrl, first, origin), second, origin), second, true, Rejected);
            outcome.Moved? && !outcome.next.subscribed
  {
  }

  /** There are such sessions: a manifest is understood, and its update is refused. */
  lemma {:induction false} SomeSessionDropsItsPackager(manifestUrl: string, first: string, second: string, origin: Origin)
    requires first != second && origin.originalUrl == manifestUrl
    ensures var s, steps := Initial(manifestUrl, true), Arrival(first, origin, Understood(true)) + Arrival(second, origin, Rejected);
            && AdmissibleRun(s, steps) && Run(s, steps).Moved?
            && !Run(s, steps).next.subscribed && !NoDropRun(s, steps)
  {
    hide Run, AdmissibleRun, NoDropRun, Places, AddedHandled, AddItem;
    var s, t := Initial(manifestUrl, true), WithManifest(manifestUrl, first, origin);
    InitialInv(manifestUrl, true);
    ManifestUnderstood(manifestUrl, first, origin);
    ArrivalRuns(s, first, origin, Understood(true), Arrival(second, origin, Rejected));
    WithManifestPlaces(manifestUrl, first, origin);
    UpdateRefused(manifestUrl, first, second, origin);
    ArrivalRuns(t, second, origin, Rejected, []);
    assert Arrival(second, origin, Rejected) + [] == Arrival(second, origin, Rejected);
    RunOfNothing(AddedHandled(Arrived(t, second, origin), second, true, Rejected).next);
    SubscribedIffNeverDropped(s, Arrival(first, origin, Understood(true)) + Arrival(second, origin, Rejected));
  }

  // ----- Everything sent -----

  lemma {:induction false} NoRefusalMeansNoDrop(s: System, steps: seq<Step>)
    requires NoRefusalRun(s, steps)
    ensures NoDropRun(s, steps)
    decreases |steps|
  {
    hide Next, Refuses;
    if steps != [] && Next(s, steps[0]).Moved? {
      NoRefusalMeansNoDrop(Next(s, steps[0]).next, steps[1..]);
    }
  }

  lemma RestingLine(s: System)
    requires Inv(s) && Quiescent(s) && s.packager.Some? && s.hasDestination
    ensures OrderLine(s) == s.packager.value.sent
  {
    QuiescentStoreThread(s);
    QuiescentPackager(s, s.packager.value);
    hide Inv, Quiescent;
    assert ToSend(s.packager.value) == [];
  }

  /** A session without refusals that has come to rest has transmitted exactly what was stored, in
      that order. */
  lemma {:induction false} QuietSessionSentEverything(manifestUrl: string, steps: seq<Step>)
    requires AdmissibleRun(Initial(manifestUrl, true), steps) && NoRefusalRun(Initial(manifestUrl, true), steps)
    requires Run(Initial(manifestUrl, true), steps).Moved? && Quiescent(Run(Initial(manifestUrl, true), steps).next)
    ensures var t := Run(Initial(manifestUrl, true), steps).next;
            && t.packager.Some? && t.packager.value.sent == Ingested(steps)
            && forall id :: id in t.objects ==> t.objects[id].keepAfterSend
  {
    hide Inv, Next, Admissible, Refuses, RestIsKept, Quiescent, OrderLine, Ingested;
    var s, t := Initial(manifestUrl, true), Run(Initial(manifestUrl, true), steps).next;
    InitialInv(manifestUrl, true);
    InitialRest(manifestUrl);
    NoRefusalMeansNoDrop(s, steps);
    RunKeepsRest(s, steps);
    SubscribedIffNeverDropped(s, steps);
    TransmittedOnceAndInOrderIff(manifestUrl, true, steps);
    RestingLine(t);
    QuiescentStoreIsKept(t);
  }
}
