/** The objects behind the streaming pipeline: the store, and the controller with its packager.
    Every method is one step of the transition system, on the state read off the objects. */
module StreamingController {
  import opened Basics
  import opened StableOrder
  import opened ObjectListPackager
  import opened StreamingPipeline
  import SessionUrls

  class ObjectStore {
    var objects: map<string, Metadata>
    var asyncEvents: seq<StoreEvent>
    var dispatching: Option<Delivery>

    constructor ()
      ensures objects == map[] && asyncEvents == [] && dispatching == None
    {
      objects, asyncEvents, dispatching := map[], [], None;
    }

    method AddObject(id: string, origin: Origin)
      modifies this`objects, this`asyncEvents
      ensures objects == old(objects)[id := Metadata(origin, false)]
      ensures asyncEvents == old(asyncEvents) + [ObjectAdded(id)]
    {
      objects := objects[id := Metadata(origin, false)];
      asyncEvents := asyncEvents + [ObjectAdded(id)];
    }

    /** `None` stands for the exception that `std::map::at` throws. */
    method GetMetadata(id: string) returns (r: Option<Metadata>)
      ensures r.Some? <==> id in objects
      ensures id in objects ==> r.value == objects[id]
    {
      if id in objects { return Some(objects[id]); }
      return None;
    }

    method KeepAfterSend(id: string)
      requires id in objects
      modifies this`objects
      ensures objects == old(objects)[id := old(objects)[id].(keepAfterSend := true)]
    {
      objects := objects[id := objects[id].(keepAfterSend := true)];
    }

    method DeleteObject(id: string)
      modifies this`objects, this`asyncEvents
      ensures objects == old(objects) - {id}
      ensures asyncEvents == old(asyncEvents) + [ObjectDeleted(id)]
    {
      objects := objects - {id};
      asyncEvents := asyncEvents + [ObjectDeleted(id)];
    }
  }

  /** How a handler ended: `Waiting` for a thread to join, or with an exception of a lookup. */
  datatype Progress = Done | Waiting | OutOfRange

  ghost predicate Agrees(progress: Progress, before: System, after: System, outcome: Outcome) {
    match outcome
    case Moved(t) => progress.Done? && after == t
    case Blocked => progress.Waiting? && after == before
    case LookupFailed => progress.OutOfRange? && after == before
  }

  class ObjectStreamingController {
    const store: ObjectStore
    const manifestUrl: string
    const hasDestination: bool
    var packager: ObjectListPackager?
    var deleting: bool
    var subscribed: bool
    var hasHandler: bool

    ghost function Repr(): set<object>
      reads this
    {
      {this, store} + if packager == null then {} else {packager}
    }

    ghost predicate Valid()
      reads Repr()
    {
      packager != null ==> packager.Valid()
    }

    ghost function View(): System
      reads Repr()
    {
      System(store.objects, store.asyncEvents, store.dispatching,
             if packager == null then None else Some(packager.State()),
             deleting, subscribed, hasHandler, manifestUrl, hasDestination)
    }

    constructor (manifestUrl: string, hasDestination: bool)
      ensures Valid() && fresh(Repr())
      ensures View() == Initial(manifestUrl, hasDestination)
      ensures store.objects == map[] && packager != null && packager.packageItems == [] && subscribed && !hasHandler
    {
      store := new ObjectStore();
      this.manifestUrl, this.hasDestination := manifestUrl, hasDestination;
      packager := new ObjectListPackager([]);
      deleting, subscribed, hasHandler := false, true, false;
    }

    method AddObject(id: string, origin: Origin)
      requires Valid()
      modifies store
      ensures Valid() && Next(old(View()), Ingest(id, origin)) == Moved(View())
    {
      store.AddObject(id, origin);
    }

    method TakeEvent()
      requires Valid() && store.dispatching.None? && store.asyncEvents != []
      modifies store
      ensures Valid() && Next(old(View()), TakeStoreEvent) == Moved(View())
    {
      store.dispatching := Some(Delivering(store.asyncEvents[0]));
      store.asyncEvents := store.asyncEvents[1..];
    }

    method SetObjectListPackager()
      modifies this
      ensures packager != null && fresh(packager) && packager.Valid() && packager.State() == NewPackager([])
      ensures !subscribed && hasHandler == old(hasHandler) && deleting == old(deleting)
    {
      packager := new ObjectListPackager([]);
      subscribed := false;
    }

    method QueueForPackaging(id: string)
      requires Valid()
      modifies this, packager
      ensures Valid() && fresh(Repr() - old(Repr()))
      ensures View() == PackageObject(old(View()), id)
    {
      if packager == null {
        SetObjectListPackager();
      }
      packager.Add(PackageItem(id, None));
    }

    /** `check_if_object_added_is_manifest`: compare either URL of the object, and mark a manifest to
        be kept. */
    method CheckIfManifest(id: string) returns (r: Option<bool>)
      requires Valid()
      modifies store`objects
      ensures Valid() && r == if id in old(store.objects) then Some(IsManifest(old(View()), id)) else None
      ensures View() == if r == Some(true) then Keep(old(View()), id) else old(View())
      ensures id in old(store.objects) ==>
                var metadata := old(store.objects)[id];
                && r == Some(metadata.origin.originalUrl == manifestUrl || metadata.origin.fetchedUrl == manifestUrl)
                && store.objects == old(store.objects)[id := metadata.(keepAfterSend := metadata.keepAfterSend || r.value)]
    {
      var metadata := store.GetMetadata(id);
      if metadata.None? { return None; }
      if metadata.value.origin.originalUrl == manifestUrl || metadata.value.origin.fetchedUrl == manifestUrl {
        store.KeepAfterSend(id);
        return Some(true);
      }
      return Some(false);
    }

    /** The first half of `processEvent` for an ObjectAdded event. */
    method CheckObject(id: string) returns (progress: Progress)
      requires Valid() && store.dispatching == Some(Delivering(ObjectAdded(id)))
      modifies store
      ensures Valid() && Agrees(progress, old(View()), View(), Next(old(View()), StreamingPipeline.CheckObject))
    {
      var isManifest := CheckIfManifest(id);
      if isManifest.None? { return OutOfRange; }
      store.dispatching := Some(Checked(id, isManifest.value));
      return Done;
    }

    /** The second half: nothing is locked in between. A refused update of a known manifest destroys
        the packager, which has to wait until both of its threads have come to a stop. */
    method ProcessObjectAdded(id: string, isManifest: bool, verdict: Verdict) returns (progress: Progress)
      requires Valid() && store.dispatching == Some(Checked(id, isManifest))
      modifies Repr()
      ensures Valid() && fresh(Repr() - old(Repr()))
      ensures Agrees(progress, old(View()), View(), AddedHandled(old(View()), id, isManifest, verdict))
    {
      hide Insert;
      if isManifest {
        var metadata := store.GetMetadata(id);
        if metadata.None? { return OutOfRange; }
        if verdict.Rejected? {
          if hasHandler {
            if packager != null && !(packager.phase.Idle? && packager.dispatching.None?) { return Waiting; }
            packager, subscribed := null, false;
          }
          store.dispatching := None;
          return Done;
        }
        hasHandler := hasHandler || verdict.handlerMade;
      }
      store.dispatching := None;
      QueueForPackaging(id);
      return Done;
    }

    /** `processEvent` for the event that the store's thread is delivering, from where nothing is left
        to be checked. */
    method ProcessStoreEvent(verdict: Verdict) returns (progress: Progress)
      requires Valid() && store.dispatching.Some?
      requires store.dispatching.value.Delivering? ==> store.dispatching.value.event.ObjectDeleted?
      modifies Repr()
      ensures Valid() && fresh(Repr() - old(Repr()))
      ensures Agrees(progress, old(View()), View(), Next(old(View()), HandleStoreEvent(verdict)))
    {
      hide AddedHandled;
      if store.dispatching.value.Delivering? {
        store.dispatching := None;
        return Done;
      }
      progress := ProcessObjectAdded(store.dispatching.value.objectId, store.dispatching.value.isManifest, verdict);
    }

    /** The lookups, the announced location and the hand-over to the transmitter inside the unlocked
        window. */
    method SendSelected(toi: nat) returns (progress: Progress, location: string)
      requires Valid() && packager != null && packager.phase.Selected?
      modifies packager
      ensures Valid()
      ensures Agrees(progress, old(View()), View(), Next(old(View()), SendObject(toi)))
      ensures progress.Done? ==>
                && old(packager.phase.item.objectId) in store.objects
                && var origin := store.objects[old(packager.phase.item.objectId)].origin;
                   location == SessionUrls.Location(origin.fetchedUrl, origin.ingestBase, origin.distributionBase)
    {
      var metadata := store.GetMetadata(packager.phase.item.objectId);
      if metadata.None? { return OutOfRange, ""; }
      location := AnnouncedLocation(metadata.value.origin);
      packager.Send(toi);
      progress := Done;
    }

    /** Substitute the bases if both are set and the fetched URL is under the ingest base. */
    method AnnouncedLocation(origin: Origin) returns (location: string)
      ensures location == SessionUrls.Location(origin.fetchedUrl, origin.ingestBase, origin.distributionBase)
    {
      var ingestBase := if origin.ingestBase.Some? then origin.ingestBase.value else "";
      var distributionBase := if origin.distributionBase.Some? then origin.distributionBase.value else "";
      if ingestBase != "" && distributionBase != "" && StartsWith(origin.fetchedUrl, ingestBase) {
        location := distributionBase + origin.fetchedUrl[|ingestBase|..];
      } else {
        location := origin.fetchedUrl;
      }
    }

    /** The first half of `ObjectController::processEvent` for the completion that the packager's
        thread is delivering. */
    method ProcessSendCompleted() returns (progress: Progress)
      requires Valid() && packager != null && packager.dispatching.Some? && !deleting
      modifies this, packager
      ensures Valid() && packager == old(packager)
      ensures Agrees(progress, old(View()), View(), Next(old(View()), HandleCompletion))
    {
      if subscribed {
        var metadata := store.GetMetadata(packager.dispatching.value);
        if metadata.None? { return OutOfRange; }
        if !metadata.value.keepAfterSend {
          deleting := true;
          return Done;
        }
      }
      packager.EventHandled();
      return Done;
    }

    /** The second half, for an object that was found unmarked. */
    method DeleteCompletedObject()
      requires Valid() && packager != null && packager.dispatching.Some? && deleting
      modifies this, store, packager
      ensures Valid() && Next(old(View()), DeleteCompleted) == Moved(View())
    {
      store.DeleteObject(packager.dispatching.value);
      packager.EventHandled();
      deleting := false;
    }
  }
}
