/** The manifest of a session is recognised when it is stored, and from then on stays in the store. */
module ManifestRetention {
  import opened Basics
  import opened ObjectListPackager
  import opened StreamingPipeline
  import opened PipelineDrain
  import opened SessionUrls
  import opened PullObjectIngester
  import Headers = CurlHeaders
  import Dash = DashManifestHandler

  ghost predicate Pinned(s: System, id: string) {
    id in Survivors(s)
  }

  predicate Reuses(step: Step, id: string) {
    step.Ingest? && step.objectId == id
  }

  lemma SameStorePinned(s: System, t: System, id: string)
    requires Pinned(s, id) && t.objects == s.objects && StorePlaces(t) == StorePlaces(s) && t.manifestUrl == s.manifestUrl
    ensures Pinned(t, id)
  {
  }

  lemma IngestKeepsPinned(s: System, step: Step, id: string)
    requires Pinned(s, id) && step.Ingest? && !Reuses(step, id)
    ensures Pinned(Next(s, step).next, id)
  {
    hide AddedIds;
    AddedIdsAppend(s.storeEvents, ObjectAdded(step.objectId));
  }

  lemma CheckKeepsPinned(s: System, checked: string, id: string)
    requires Pinned(s, id) && s.storeDispatching == Some(Delivering(ObjectAdded(checked))) && ObjectChecked(s, checked).Moved?
    ensures Pinned(ObjectChecked(s, checked).next, id)
  {
    hide Places, StorePlaces, ObjectChecked;
    ObjectCheckedPlaces(s, checked);
  }

  /** By the time a manifest leaves the store's thread it is marked. */
  lemma HandledKeepsPinned(s: System, added: string, isManifest: bool, verdict: Verdict, id: string)
    requires HandlersOk(s) && Pinned(s, id)
    requires s.storeDispatching == Some(Checked(added, isManifest)) && AddedHandled(s, added, isManifest, verdict).Moved?
    ensures Pinned(AddedHandled(s, added, isManifest, verdict).next, id)
  {
    hide AddedHandled, StorePlaces;
    var t := AddedHandled(s, added, isManifest, verdict).next;
    HandledChanges(s, added, isManifest, verdict);
    HandledStorePlaces(s, added, isManifest);
    StorePlacesFrame(s.(storeDispatching := None), t);
  }

  lemma CompletionKeepsPinned(s: System, p: PackagerState, step: Step, id: string)
    requires Inv(s) && Pinned(s, id) && s.packager == Some(p) && OfCompletion(step) && PackagerThreads(s, p, step).Moved?
    ensures Pinned(PackagerThreads(s, p, step).next, id)
  {
    hide Placed, Places, StorePlaces, CompletionHandled;
    HandledIdsAreOutstanding(s);
    if step.DeleteCompleted? {
      CompletedDeletedPlaces(s, p);
    } else {
      CompletionHandledPlaces(s, p);
      StorePlacesFrame(s, PackagerThreads(s, p, step).next);
    }
  }

  lemma PackagerStepKeepsPinned(s: System, p: PackagerState, step: Step, id: string)
    requires Inv(s) && Pinned(s, id) && s.packager == Some(p) && PackagerThreads(s, p, step).Moved?
    ensures Pinned(PackagerThreads(s, p, step).next, id)
  {
    hide Inv, Pinned, StorePlaces, CompletionHandled, CompletedDeleted;
    if OfCompletion(step) {
      CompletionKeepsPinned(s, p, step, id);
    } else {
      StorePlacesFrame(s, PackagerThreads(s, p, step).next);
      SameStorePinned(s, PackagerThreads(s, p, step).next, id);
    }
  }

  lemma StepKeepsPinned(s: System, step: Step, id: string)
    requires Inv(s) && Pinned(s, id) && !Reuses(step, id) && Next(s, step).Moved?
    ensures Pinned(Next(s, step).next, id)
  {
    hide Placed, HandlersOk, Pinned, Places, StorePlaces, ObjectChecked, AddedHandled, PackagerThreads;
    var t := Next(s, step).next;
    if step.Ingest? {
      IngestKeepsPinned(s, step, id);
    } else if step.TakeStoreEvent? {
      TakingPlaces(s);
      SameStorePinned(s, t, id);
    } else if step.CheckObject? {
      CheckKeepsPinned(s, s.storeDispatching.value.event.objectId, id);
    } else if step.HandleStoreEvent? {
      if s.storeDispatching.value.Checked? {
        HandledKeepsPinned(s, s.storeDispatching.value.objectId, s.storeDispatching.value.isManifest, step.verdict, id);
      } else {
        DeletedHandledPlaces(s);
        SameStorePinned(s, t, id);
      }
    } else {
      PackagerStepKeepsPinned(s, s.packager.value, step, id);
    }
  }

  /** Whatever the threads do, and also when the packager is dropped, an object to be kept stays in
      the store until its id is used again. */
  lemma {:induction false} RunKeepsPinned(s: System, steps: seq<Step>, id: string)
    requires Inv(s) && AdmissibleRun(s, steps) && Run(s, steps).Moved?
    requires Pinned(s, id) && forall i :: 0 <= i < |steps| ==> !Reuses(steps[i], id)
    ensures Pinned(Run(s, steps).next, id)
    decreases |steps|
  {
    hide Inv, Next, Survivors, Admissible;
    if steps != [] {
      StepKeepsInv(s, steps[0]);
      StepKeepsPinned(s, steps[0], id);
      RunKeepsPinned(Next(s, steps[0]).next, steps[1..], id);
    }
  }

  /** An object stored under the manifest URL, by either of its URLs, is never deleted. */
  lemma {:induction false} ManifestIsNeverDeleted(s: System, id: string, origin: Origin, steps: seq<Step>)
    requires Inv(s) && id !in Places(s) && (origin.originalUrl == s.manifestUrl || origin.fetchedUrl == s.manifestUrl)
    requires AdmissibleRun(Store(s, id, origin), steps) && Run(Store(s, id, origin), steps).Moved?
    requires forall i :: 0 <= i < |steps| ==> !Reuses(steps[i], id)
    ensures id in Run(Store(s, id, origin), steps).next.objects
  {
    var t := Store(s, id, origin);
    IngestKeepsInvIff(s, id, origin);
    AddedIdsAppend(s.storeEvents, ObjectAdded(id));
    hide Inv, AddedIds, Run, AdmissibleRun;
    assert id in AddedId(ObjectAdded(id));
    assert Pinned(t, id);
    RunKeepsPinned(t, steps, id);
  }

  function OriginOf(stored: StoredObject): Origin {
    Origin(stored.originalUrl, stored.fetchedUrl, stored.ingestBaseUrl, stored.distributionBaseUrl)
  }

  /** What a valid PULL session fetches is never deleted, wherever the server redirects it to. */
  lemma {:induction false} PulledManifestIsNeverDeleted(s: System, session: Session, ids: nat -> string, k: nat,
                                                        redirectUrl: string, steps: seq<Step>)
    requires session.acquisitionMethod == "PULL" && ValidPull(session) && k < |PullItems(session, EntriesOf(session), ids)|
    requires Inv(s) && s.manifestUrl == ManifestUrl(session)
    requires var item := PullItems(session, EntriesOf(session), ids)[k];
             var t := Store(s, item.objectId, OriginOf(Downloaded(item, redirectUrl)));
             && item.objectId !in Places(s)
             && AdmissibleRun(t, steps) && Run(t, steps).Moved?
             && forall i :: 0 <= i < |steps| ==> !Reuses(steps[i], item.objectId)
    ensures var item := PullItems(session, EntriesOf(session), ids)[k];
            item.objectId in Run(Store(s, item.objectId, OriginOf(Downloaded(item, redirectUrl))), steps).next.objects
  {
    hide PullItems, ManifestUrl, Run, AdmissibleRun, Inv, Places, Store;
    var item := PullItems(session, EntriesOf(session), ids)[k];
    PulledUrlIsManifestUrl(session, ids);
    ManifestIsNeverDeleted(s, item.objectId, OriginOf(Downloaded(item, redirectUrl)), steps);
  }

  function PushedOrigin(serverPrefix: string, url: string, distributionBase: Option<string>): Origin {
    Origin(PushedUrl(serverPrefix, url), PushedUrl(serverPrefix, url), Some(serverPrefix), distributionBase)
  }

  /** An accepted push of a path under a relative id that does not end in a slash is never deleted. */
  lemma {:induction false} PushedManifestIsNeverDeleted(s: System, session: Session, serverPrefix: string, url: string,
                                                        id: string, steps: seq<Step>)
    requires session.acquisitionMethod == "PUSH" && ValidPush(session)
    requires EndsWith(serverPrefix, "/") && StartsWith(url, "/")
    requires var p := Prepared(session, serverPrefix);
             && s.manifestUrl == ManifestUrl(p)
             && AcceptsPush(p, url) && !IsAbsolute(p.pushId.value) && !EndsWith(p.pushId.value, "/")
    requires var t := Store(s, id, PushedOrigin(serverPrefix, url, session.distributionBase));
             && Inv(s) && id !in Places(s) && AdmissibleRun(t, steps) && Run(t, steps).Moved?
             && forall i :: 0 <= i < |steps| ==> !Reuses(steps[i], id)
    ensures id in Run(Store(s, id, PushedOrigin(serverPrefix, url, session.distributionBase)), steps).next.objects
  {
    hide PushedUrl, ManifestUrl, AcceptsPush, IsAbsolute, Run, AdmissibleRun, Inv, Places, Store, EndsWith, StartsWith;
    PushedPathIsManifestUrlIff(session, serverPrefix, url);
    ManifestIsNeverDeleted(s, id, PushedOrigin(serverPrefix, url, session.distributionBase), steps);
  }

  /** A segment that the schedule has fetched under the ingest base is announced under the
      distribution base. */
  lemma ScheduledObjectIsAnnounced(segment: Dash.Segment, id: string, base: string, distribution: string)
    requires base != "" && distribution != "" && StartsWith(segment.url, base)
    ensures var origin := OriginOf(Downloaded(Dash.ItemFor(segment, id, Some(base), Some(distribution)), ""));
            var location := Location(origin.fetchedUrl, origin.ingestBase, origin.distributionBase);
            && location == distribution + segment.url[|base|..]
            && Location(location, origin.distributionBase, origin.ingestBase) == segment.url
  {
    DownloadIsAnnounced(Dash.ItemFor(segment, id, Some(base), Some(distribution)), "", base, distribution);
  }

  // ----- Refreshing a redirected manifest -----

  /** The item that refreshes a manifest object. */
  function RefreshItem(manifest: Dash.ManifestObject, mpd: Dash.Mpd, id: string, session: Session): IngestItem
    requires mpd.minimumUpdatePeriod.Some?
  {
    Dash.ItemFor(Dash.RefreshOf(manifest, mpd, true)[0], id, session.ingestBase, session.distributionBase)
  }

  /** A valid PULL session downloads its manifest over a chain of responses and refreshes it later,
      without a further redirect. The refresh is recognised as the manifest exactly when the chain
      had no permanent redirect, or its last one led to nothing or back to the manifest URL. */
  lemma {:induction false} RefreshIsRecognisedIff(s: System, session: Session, ids: nat -> string, k: nat,
      h: Headers.Info, responses: seq<Headers.Response>, stoi: Headers.ToInt, stoul: Headers.ToNat,
      received: int, expiry: Option<int>, mpd: Dash.Mpd, id: string)
    requires session.acquisitionMethod == "PULL" && ValidPull(session) && k < |PullItems(session, EntriesOf(session), ids)|
    requires s.manifestUrl == ManifestUrl(session)
    requires forall i :: 0 <= i < |responses| ==> Headers.WellFormed(responses[i], stoi)
    requires mpd.minimumUpdatePeriod.Some?
    ensures var redirectUrl := Headers.ProcessAll(Headers.Reset(h), Headers.LinesOfAll(responses), stoi, stoul).info.redirectUrl;
            var item := PullItems(session, EntriesOf(session), ids)[k];
            var manifest := Dash.ManifestObject(Downloaded(item, redirectUrl).fetchedUrl, received, expiry);
            var refresh := RefreshItem(manifest, mpd, id, session);
            var redirect := Headers.FindLast(Headers.RedirectOf, responses);
            IsManifest(Store(s, id, OriginOf(Downloaded(refresh, ""))), id)
            == (redirect.None? || redirect == Some("") || redirect == Some(ManifestUrl(session)))
  {
    hide PullItems, ManifestUrl, Headers.ProcessAll, Headers.LinesOfAll, Headers.FindLast, Headers.WellFormed;
    PulledUrlIsManifestUrl(session, ids);
    Headers.ChainIsRead(Headers.Reset(h), responses, stoi, stoul);
  }
}
