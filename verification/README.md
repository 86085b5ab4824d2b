# MBSTF object delivery: a verified model

This project models the object delivery path of a 5G MBS Transport Function (MBSTF) and proves
properties of it. Objects are pulled or pushed into an object store, announced over a home-made
publish/subscribe layer, queued in a FLUTE packager, transmitted one at a time, and deleted after
transmission unless they are manifests. `dafny verify dfyconfig.toml` checks everything.

| file | part of the system |
|---|---|
| `StableOrder.dfy` | the ordering of the work lists: stable sort on an optional deadline, and the waiting room it implements |
| `ObjectListPackager.dfy` | the packager: work list, unlocked send window, object in flight, completion events |
| `StreamingPipeline.dfy`, `PipelineResults.dfy`, `PipelineDrain.dfy` | a STREAMING session as a labelled transition system over store, event threads, controller, packager and transmitter: invariant, safety, order of transmission, draining |
| `PipelineDrops.dfy`, `PipelineReuse.dfy` | the limits of these results: refused manifests, and ids that are used again |
| `StreamingController.dfy` | the objects behind that transition system, each method proved to be one of its steps |
| `ManifestRetention.dfy` | manifests are recognised and never deleted |
| `SubscriptionTables.dfy`, `SubscriptionLinks.dfy`, `Subscriptions.dfy` | subscription tables, links in both directions, and the classes that keep them |
| `EventDelivery.dfy`, `AsyncEvents.dfy` | ordered delivery with stop and prevent flags, and the asynchronous queue |
| `PullObjectIngester.dfy`, `PullWorker.dfy` | fetch lists, the unlocked download, the pool of ingesters fed by the schedule |
| `DashManifestHandler.dfy` | the pull schedule of a DASH presentation |
| `PushObjectIngester.dfy` | push requests |
| `Factories.dfy` | the priority registries of controllers and manifest handlers |
| `SessionUrls.dfy` | fetched, pushed, manifest and announced URLs |
| `CurlHeaders.dfy` | the header line state machine of a download |

Code that updates state in place is a class or a method with loops, proved against functions on
values; the properties are lemmas about those functions. Concurrency is interleaving: a step is what
one thread does from taking a lock until it takes the next one. So the packager's send window, a
download, and both event handlers of the controller are split: ObjectAdded into the lookup that
compares and marks, and the queueing; ObjectSendCompleted into the lookup that tests the mark, and
the deletion. Lookups of one object by one handler that follow each other directly, the manifest
handler's verdict and the queueing after it are one step: what comes in between them finds the
handler in the same phase as before them.

## Assumptions about the environment

- An object is stored under an id that is not outstanding in the pipeline, and the transmitter
  reports a TOI once, after `send` has returned. How far these assumptions are needed is proved:
  `StoringIsSafeIff` says for which ids storing an object can lead to a failing lookup, and
  `CompletionKeepsOrderIffReportedOnce` when a report breaks the order of announcements.
- Nothing is stored before the controller's constructor has subscribed to the store. The base class
  starts the pull ingester earlier (src/mbstf/ObjectManifestController.cc:43-54 against
  src/mbstf/ObjectStreamingController.cc:46-54), and an ObjectAdded event delivered in between
  reaches nobody.
- What comes from outside is a parameter: the clock (nanoseconds), new object ids, the segments that
  the MPD offers, the response of a download, what a handler or a constructor does with its
  argument, the order in which a set of subscribers is traversed, `std::stoi` and `std::stoul`.
- `SegmentAvailability::operator<` orders by start time, and subscribers do not edit the table they
  are being called from.
- Times, counts and TOIs are unbounded integers, strings are sequences of characters. The 32-bit TOI
  of the transmitter does not wrap around.

## What the code does not do

Each of these is a lemma about the code as it is.

- `StoringIsSafeIff`: storing an object under an outstanding id leads, in some continuation, to a
  lookup of an object that is not in the store, because a completion deletes the new object while
  its id still has a place. Under the manifest URL this takes an id whose object has been checked
  already, also if it is not queued yet, because the mark made then is lost; under any other URL an
  outstanding id is enough. In all other cases, and whenever the controller does not listen to its
  packager, no continuation fails.
- `CompletionKeepsOrderIffReportedOnce`: the completion callback does not look at `m_queued`, so a
  second report of the last TOI announces a completion that no transmission explains.
- `PopRemovesWhatWasSentIff`: an item with an earlier deadline that arrives in the unlocked window is
  popped unsent. The controllers add items without a deadline, and these never do that.
- `TransmittedOnceAndInOrderIff`: what is stored is transmitted once and in order exactly when no
  manifest was refused.
- `SubscribedIffNeverDropped`, `DroppedSessionNeverDrains`: a refused update of a known manifest, and
  nothing else, leaves the controller with a packager it does not listen to, and from then on every
  object is stored for good.
- `CopyKeepsLinksIff`: copying a subscriber that has subscriptions leaves services that mention the
  copy without the copy knowing them.
- `ExtrasLeaveWhenEmittedIff`: extra objects leave the list as often as they are emitted from it
  exactly when no media segment of the batch shares their URL or all of them are due
  (`SharedUrlDropsAnExtra` is an instance where they do not).
- `RefreshIsEmittedIffDue`, `RefreshIsDueAfterEveryUpdate`: the refresh of an MPD is emitted exactly
  when its time has come, and that time counts from the first manifest also after an update, so once
  it has passed every update is followed at once by another refresh.
- `RefreshIsRecognisedIff`: a refresh is fetched at the URL that the manifest was permanently
  redirected to, and is recognised as the manifest only if there was no such redirect or it led
  nowhere else.
- `PushedPathIsManifestUrlIff`, `PushedNameIsNeverManifestUrl`: an accepted push is stored under the
  manifest URL only if its path starts with a slash and its id is relative and does not end in one
  ("/" itself excepted).
- `PushedObjectIsQueuedAgain`: the metadata of a pushed object carry an empty object id, so every
  fetch of it by id queues it once more, under the empty id.
- `StaleMaxAgeSurvives`: `Curl::get` does not reset max-age, so a response without the directive
  inherits the one of an earlier download.

## Model

| member | source | states |
|---|---|---|
| StableOrder.ComparatorIsStrictWeakOrder | src/mbstf/ObjectListPackager.cc:205-212 | The sort comparator is irreflexive and transitive, incomparable means equal deadlines, and "no deadline" is greatest. |
| StableOrder.StableSortIsUnique | src/mbstf/ObjectListPackager.cc:205-212 | A list is ordered and keeps ties in place if and only if it is the one the model computes, so modelling `std::list::sort` by insertion loses nothing. |
| StableOrder.ServingTheFront | src/mbstf/ObjectListPackager.cc:157-194 | The front of the sorted list is the first arrival among those with the earliest deadline, and popping it removes exactly that arrival. |
| StableOrder.SortedListRefinesWaitingRoom | src/mbstf/ObjectListPackager.cc:108-212 | After any run of adds and front removals the packager list is the remaining arrivals in stable deadline order: earliest first, first come first served on ties, deadline-less last. |
| ObjectListPackager.RunAnnouncesWhatWasSent | src/mbstf/ObjectListPackager.cc:138-193 | In every run the ids announced followed by the one in flight are the ids sent, in order; at most one is in flight; another TOI changes nothing. |
| ObjectListPackager.RunDeliversInOrder | src/mbstf/SubscriptionService.cc:317-338 | In every run, the completion event under way and those queued are the end of the list of announcements, in order: events leave the queue oldest first. |
| ObjectListPackager.CompletionKeepsOrderIffReportedOnce | src/mbstf/ObjectListPackager.cc:138-149 | A completion report keeps that law exactly when the TOI was not reported before. |
| ObjectListPackager.PopRemovesWhatWasSentIff | src/mbstf/ObjectListPackager.cc:157-194 | Across the unlocked window the item popped is the item sent if and only if nothing that arrived sorts strictly ahead; then all others survive in place, otherwise an unsent item is lost and the sent one stays. |
| ObjectListPackager.ObjectListPackager.constructor | src/mbstf/ObjectListPackager.cc:59-70 | A new packager holds its items in stable order, with nothing in flight. |
| ObjectListPackager.ObjectListPackager.SortListByPolicy | src/mbstf/ObjectListPackager.cc:205-212 | The list becomes the one stable sort of itself. |
| ObjectListPackager.ObjectListPackager.Add | src/mbstf/ObjectListPackager.cc:108-120 | Pushing back and sorting inserts the item behind everything it does not strictly precede; nothing else changes. |
| ObjectListPackager.ObjectListPackager.Send | src/mbstf/ObjectListPackager.cc:179-191 | The selected object becomes the one in flight with the TOI of the transmitter. |
| ObjectListPackager.ObjectListPackager.OnCompletion | src/mbstf/ObjectListPackager.cc:138-149 | A report of the TOI last sent frees the slot and queues one completion event, any other changes nothing; the invariant is kept exactly if that TOI was not reported before. |
| ObjectListPackager.ObjectListPackager.DoObjectPackage | src/mbstf/ObjectListPackager.cc:157-194 | One worker round with arbitrary adds inside the unlocked window: what is sent, what is in flight, and which list is left. |
| StreamingPipeline.IngestKeepsInvIff | src/mbstf/ObjectStore.cc:111-124 | Storing an object keeps the ownership invariant if and only if its id is not outstanding. |
| StreamingPipeline.StepKeepsInv | src/mbstf/ObjectStreamingController.cc:79-140 | Every step of every thread keeps the invariant (no id in two places, every outstanding id stored), and no lookup in the store fails. |
| StreamingPipeline.RunKeepsInv | src/mbstf/ObjectListPackager.cc:157-194 | The same for every run, dropped packagers included. |
| StreamingPipeline.StepKeepsHandlersOk | src/mbstf/ObjectController.cc:54-58 | What the two event handlers found out under one lock still holds when they act on it under the next: a checked manifest is marked, an object about to be deleted is stored and unmarked. |
| StreamingPipeline.CompletionStepKeepsPlaced | src/mbstf/ObjectController.cc:48-64 | Both halves of handling a completion find their object, and deleting it leaves no dangling id. |
| StreamingPipeline.AddedHandledKeepsPlaced | src/mbstf/ObjectStreamingController.cc:85-136 | Acting on a checked object finds it again and moves its one occurrence into the packager, or drops it with the packager on a refused manifest. |
| PipelineResults.OutstandingObjectHasOnePlace | src/mbstf/ObjectStreamingController.cc:79-140 | An outstanding id is stored and is in exactly one of six places: ObjectAdded queued or being handled, list, air, completion queued or being handled. |
| PipelineResults.ReachableStatesAreSafe | src/mbstf/ObjectStore.cc:126-153 | In every reachable state each outstanding id is in one place and stored, and no possible next step looks up an object that is not there. |
| PipelineResults.TransmittedOnceAndInOrderIff | src/mbstf/ObjectListPackager.cc:122-194 | For every run: the ids sent, then those in the list, then those whose ObjectAdded is pending are the ids stored, in order (transmission once and first in first out across both event queues), if and only if no manifest was refused. |
| PipelineResults.NothingIsSentWithoutDestination | src/mbstf/ObjectListPackager.cc:122-126 | Without a destination address no run transmits anything. |
| PipelineDrain.StepDecreases | src/mbstf/ObjectController.cc:48-64 | A measure over all stages falls with every internal step, drops included. |
| PipelineDrain.StepKeepsSurvivors | src/mbstf/ObjectController.cc:48-64 | While the packager is not dropped, an internal step keeps "what is stored and not outstanding is to be kept" and does not change who will survive. |
| PipelineDrain.PipelineDrains | src/mbstf/ObjectController.cc:48-64 | Every run of internal steps is bounded by the measure, and where it can go no further nothing is outstanding and the store holds exactly the survivors, all marked. |
| PipelineDrain.SomeRunDrains | src/mbstf/SubscriptionService.cc:317-338 | From every state there is a run of internal steps to such an end. |
| PipelineDrain.SessionDrains | src/mbstf/ObjectStreamingController.cc:79-140 | The same after any session in which no packager was dropped. |
| PipelineDrops.SubscribedIffNeverDropped | src/mbstf/ObjectStreamingController.cc:86-108 | After any run the controller is still subscribed to its packager if and only if no known manifest was refused an update on the way. |
| PipelineDrops.HandlerIsThereIff | src/mbstf/ObjectStreamingController.cc:86-113 | After any run the session has a manifest handler if and only if the factory made one on the way. |
| PipelineDrops.RefusalWaitsIff | src/mbstf/ObjectStreamingController.cc:88-108 | A refused update has to wait exactly while there is a packager whose worker is in a round or whose event thread is delivering. |
| PipelineDrops.AfterADropNothingIsDeleted | src/mbstf/ObjectStreamingController.cc:61-108 | Once unsubscribed, no run deletes an object. |
| PipelineDrops.DroppedSessionNeverDrains | src/mbstf/ObjectStreamingController.cc:61-108 | After any session with a refused update, an object that is no manifest is stored for good and unmarked. |
| PipelineDrops.SomeSessionDropsItsPackager | src/mbstf/ObjectStreamingController.cc:86-108 | A session from the start that ends unsubscribed. |
| PipelineDrops.QuietSessionSentEverything | src/mbstf/ObjectListPackager.cc:122-194 | A session without refusals that has come to rest has sent exactly what was stored, in that order, and holds only kept objects. |
| PipelineReuse.StoringIsSafeIff | src/mbstf/ObjectStreamingController.cc:79-140 | From every state of the invariant: all continuations of storing an object are free of failing lookups if and only if the packager is not subscribed to, or the id does not collide: with a checked object (manifest URL), or with anything in the pipeline (any other URL). |
| PipelineReuse.UnsubscribedStoringIsSafe | src/mbstf/ObjectController.cc:48-64 | Without a subscription to the packager every continuation is safe, whatever the id. |
| PipelineReuse.DoomedRunFails | src/mbstf/ObjectController.cc:48-64 | From every doomed state there is an admissible run that ends in a failing lookup, built along the measure. |
| PipelineReuse.GuardedRunIsSafe | src/mbstf/ObjectListPackager.cc:157-194 | With one id placed several times but marked, or a manifest not checked yet, no run looks up a missing object. |
| StreamingController.ObjectStore.AddObject | src/mbstf/ObjectStore.cc:111-124 | The object is inserted or replaced, and one ObjectAdded event is queued. |
| StreamingController.ObjectStore.GetMetadata | src/mbstf/ObjectStore.cc:137-145 | The metadata, or the exception of the lookup exactly when the id is not stored. |
| StreamingController.ObjectStore.DeleteObject | src/mbstf/ObjectStore.cc:147-153 | The object is gone, and one ObjectDeleted event is queued. |
| StreamingController.ObjectStreamingController.constructor | src/mbstf/ObjectStreamingController.cc:46-54 | The objects start in the initial state of the transition system. |
| StreamingController.ObjectStreamingController.TakeEvent | src/mbstf/SubscriptionService.cc:317-338 | The event thread takes the oldest event: one step of the transition system. |
| StreamingController.ObjectStreamingController.SetObjectListPackager | src/mbstf/ObjectStreamingController.cc:61-72 | A replacement packager is empty and not subscribed to. |
| StreamingController.ObjectStreamingController.CheckIfManifest | src/mbstf/ObjectStreamingController.cc:171-184 | An object is the manifest when either of its URLs is the manifest URL, and then is marked; an unknown id throws. |
| StreamingController.ObjectStreamingController.CheckObject | src/mbstf/ObjectStreamingController.cc:79-85 | The first half of handling ObjectAdded is the step of the transition system. |
| StreamingController.ObjectStreamingController.ProcessObjectAdded | src/mbstf/ObjectStreamingController.cc:85-136 | The second half, with its second lookup of a manifest, is the step of the transition system, in all outcomes. |
| StreamingController.ObjectStreamingController.ProcessStoreEvent | src/mbstf/SubscriptionService.cc:327-336 | Delivering an event on which nothing is left to be checked is one step of the transition system. |
| StreamingController.ObjectStreamingController.SendSelected | src/mbstf/ObjectListPackager.cc:160-191 | The lookups, the announced location of the stored object and the hand-over inside the window are the send step, including the failing lookup. |
| StreamingController.ObjectStreamingController.AnnouncedLocation | src/mbstf/ObjectListPackager.cc:164-177 | The two branches compute the location that the lemmas of `SessionUrls` are about. |
| StreamingController.ObjectStreamingController.ProcessSendCompleted | src/mbstf/ObjectController.cc:48-56 | The lookup and the test of the mark are the step of the transition system, including the failing lookup. |
| StreamingController.ObjectStreamingController.DeleteCompletedObject | src/mbstf/ObjectController.cc:56-59 | The deletion that follows is the next step. |
| ManifestRetention.RunKeepsPinned | src/mbstf/ObjectController.cc:48-64 | Over any run, dropped packagers included, an object to be kept stays in the store until its id is used again. |
| ManifestRetention.ManifestIsNeverDeleted | src/mbstf/ObjectStreamingController.cc:171-175 | An object stored under the manifest URL is in the store after every run. |
| ManifestRetention.PulledManifestIsNeverDeleted | src/mbstf/ObjectManifestController.cc:56-88 | What a valid PULL session fetches is never deleted, wherever it is redirected to. |
| ManifestRetention.PushedManifestIsNeverDeleted | src/mbstf/PushObjectIngester.cc:117-136 | An accepted push of a path under a relative id not ending in a slash is never deleted. |
| ManifestRetention.RefreshIsRecognisedIff | src/mbstf/DASHManifestHandler.cc:140-149 | A valid PULL session's manifest, downloaded over any chain of responses: its later refresh is recognised if and only if the chain left no permanent redirect, or an empty one, or one to the manifest URL. |
| ManifestRetention.ScheduledObjectIsAnnounced | src/mbstf/PullObjectIngester.cc:142-174 | From the schedule to the store: a segment fetched under the ingest base is announced under the distribution base, and the swap can be undone. |
| SubscriptionTables.OperationRefinesMap | src/mbstf/SubscriptionService.cc:136-211 | Each operation on the tables acts on the abstract map of interests, leaves all other subscribers alone, keeps the tables disjoint without empty sets, and returns true exactly when the map changed. |
| SubscriptionTables.OperationOnTables | src/mbstf/SubscriptionService.cc:136-211 | What each operation leaves in the tables, name by name, for the subscriber and for everyone else. |
| SubscriptionTables.ReportOnTables | src/mbstf/SubscriptionService.cc:136-211 | An operation returns true exactly when it puts the subscriber into a table or takes it out of one. |
| SubscriptionTables.UnsubscribeLeavesNoTrace | src/mbstf/SubscriptionService.cc:171-193 | After unsubscribing, the subscriber is in neither table. |
| SubscriptionTables.ReachableTablesImplementMap | src/mbstf/SubscriptionService.hh:76-87 | After any history of requests no subscriber is in both tables, no named set is empty, and an interest depends only on one's own requests. |
| SubscriptionLinks.MoveKeepsLinks | src/mbstf/Subscriber.cc:133-145 | Creation, subscription and destruction of either side keep both directions of every link in agreement. |
| SubscriptionLinks.RunKeepsLinks | src/mbstf/SubscriptionService.cc:76-92 | The same for every run: neither side is left pointing at a destroyed object. |
| SubscriptionLinks.RecordDecidesSubscription | src/mbstf/Subscriber.cc:147-170 | A subscriber's own record contains a service exactly when the abstract map gives it an interest there. |
| SubscriptionLinks.CopyKeepsLinksIff | src/mbstf/Subscriber.cc:36-50 | Copying a subscriber keeps the links if and only if there was nothing to copy. |
| Subscriptions.SubscriptionService.Subscribe | src/mbstf/SubscriptionService.cc:136-154 | On the heap: the tables and the result are those of subscribing to all events. |
| Subscriptions.SubscriptionService.SubscribeToNames | src/mbstf/SubscriptionService.hh:76-87 | The loop over the names inserts them all, and returns true exactly when one was new; nothing for a subscriber to all. |
| Subscriptions.SubscriptionService.Unsubscribe | src/mbstf/SubscriptionService.cc:171-193 | The tables and the result are those of unsubscribing, erased empty sets included. |
| Subscriptions.SubscriptionService.UnsubscribeFromNames | src/mbstf/SubscriptionService.cc:195-211 | The same for a list of names. |
| Subscriptions.SubscriptionService.SubscribedEvents | src/mbstf/SubscriptionService.cc:213-226 | The answer lists the interest of the abstract map, a null entry for all events. |
| Subscriptions.Subscriber.SubscribeTo | src/mbstf/Subscriber.cc:133-138 | The call is one move of the linked world, read off the heap. |
| Subscriptions.Subscriber.SubscribeToNames | src/mbstf/Subscriber.cc:140-145 | The same with names. |
| Subscriptions.Subscriber.IsSubscribedToNames | src/mbstf/Subscriber.cc:152-170 | True exactly when the subscriber's record has the service and its interest in the abstract map covers all the names. |
| Subscriptions.Subscriber.Destroy | src/mbstf/Subscriber.cc:69-75 | The destructor is one move of the linked world: no service mentions the subscriber any more. |
| Subscriptions.DestroyService | src/mbstf/SubscriptionService.cc:76-92 | The destructor is one move of the linked world: no subscriber records the service any more. |
| EventDelivery.DeliveryIsPrefixToFirstStop | src/mbstf/SubscriptionService.cc:251-271 | The calls are the one prefix of the line that ends at the first handler that stops the event or throws, and all of it if none does. |
| EventDelivery.LineIsTheInterested | src/mbstf/SubscriptionService.cc:251-271 | Those who named the event, followed by those who want all events, are exactly the interested subscribers of the abstract map, each once. |
| EventDelivery.DeliveryCallsInterestedOnce | src/mbstf/SubscriptionService.cc:251-271 | Nobody is called twice or without interest, and everyone interested is called if nobody ends the delivery. |
| EventDelivery.NamedComeFirst | src/mbstf/SubscriptionService.cc:251-271 | In the line, whoever named the event stands before whoever wants all events. |
| EventDelivery.OutcomeOfTheCalls | src/mbstf/SubscriptionService.cc:251-271 | The default is prevented, or the delivery ended, exactly when one of the handlers called did so. |
| EventDelivery.SendEventSynchronous | src/mbstf/SubscriptionService.cc:251-271 | The two loops make those calls, and the result is always "default not prevented", also when the event is stopped or comes in stopped. |
| EventDelivery.Event.StopProcessing | src/mbstf/Event.cc:76-80 | Stopping also prevents the default action: the event invariant behind that result. |
| EventDelivery.Event.Copy | src/mbstf/Event.cc:42-47 | A copy carries the name and both flags. |
| AsyncEvents.EventsAreDeliveredInOrder | src/mbstf/SubscriptionService.cc:273-338 | Over every interleaving of sends and deliveries: the events delivered, the one being delivered and those queued are the events sent, in order. |
| AsyncEvents.AsyncEventQueue.SendEventAsynchronous | src/mbstf/SubscriptionService.cc:289-295 | The event goes to the end of the queue. |
| AsyncEvents.AsyncEventQueue.AsyncEventsLoop | src/mbstf/SubscriptionService.cc:325-336 | The loop, with sends while it is unlocked: it delivers a prefix of everything sent, in order, and leaves the rest; it ends when cancelled or when nothing is left. |
| PullObjectIngester.TimeoutRespectsDeadline | src/mbstf/PullObjectIngester.cc:135-145 | The time given to a download is what is left until its deadline in whole milliseconds, rounded towards zero; it is attempted exactly when a millisecond is left. Without a deadline it is ten seconds. |
| PullObjectIngester.FetchPendingReschedulesOnly | src/mbstf/PullObjectIngester.cc:74-98 | Fetching a pending id adds no entry and changes the deadline of the first entry with that id only; the list is sorted again. |
| PullObjectIngester.FetchedIdIsPendingIff | src/mbstf/PullObjectIngester.cc:30-40 | An object fetched by id is found pending by the next such fetch exactly when its metadata carry that id. |
| PullObjectIngester.NothingIsLostOrOvertaken | src/mbstf/PullObjectIngester.cc:74-174 | Over any interleaving of fetches and worker halves: accepted = pending + downloading + stored + failed for every item, and the next item has a minimal deadline. |
| PullObjectIngester.PullObjectIngester.Fetch | src/mbstf/PullObjectIngester.cc:100-114 | The item is placed by deadline behind its equals. |
| PullObjectIngester.PullObjectIngester.FetchById | src/mbstf/PullObjectIngester.cc:74-98 | The search loop and its three outcomes: rescheduled, queued from the store, or the exception. |
| PullObjectIngester.PullObjectIngester.BeginDownload | src/mbstf/PullObjectIngester.cc:125-141 | The worker takes an item that no other precedes, and computes its time-out. |
| PullObjectIngester.PullObjectIngester.EndDownload | src/mbstf/PullObjectIngester.cc:142-174 | The item ends up stored or failed, failed also when no time was left; what is stored has the item's URL, ids and bases, each in its field, and as fetched URL the redirect URL if there is one. |
| DashManifestHandler.BatchIsEverythingEarliest | src/mbstf/DASHManifestHandler.cc:72-138 | The fetch time is the minimum of max(start, now) over all media and extra segments, never before now, and the batch is exactly the clamped segments that attain it, in order. |
| DashManifestHandler.BatchIsChosen | src/mbstf/DASHManifestHandler.cc:72-138 | The batch, position by position: in order, exactly those candidates for which the later of start and now is the fetch time, with their own URL and deadline. |
| DashManifestHandler.EmittedIsRemoved | src/mbstf/DASHManifestHandler.cc:82-134 | For a URL that is no media segment's, one call emits as many entries as it takes off the extra list. |
| DashManifestHandler.ExtrasAreEmittedOnce | src/mbstf/DASHManifestHandler.cc:82-163 | Over any sequence of calls, emitted plus remaining entries of such a URL stay what they were: each extra object is emitted at most once, and exactly when it leaves the list. |
| DashManifestHandler.RemainingExtrasAreTheLaterOnes | src/mbstf/DASHManifestHandler.cc:152-163 | With URLs of their own, the extras left after a call are those not available at the fetch time, in order. |
| DashManifestHandler.DueExtrasAreEmittedNext | src/mbstf/DASHManifestHandler.cc:72-138 | An extra object that is due is in the very next batch, whose time is now. |
| DashManifestHandler.RemovalCounts | src/mbstf/DASHManifestHandler.cc:152-163 | On all inputs, shared URLs included: how many entries of a URL a batch takes off the list. |
| DashManifestHandler.ExtrasLeaveWhenEmittedIff | src/mbstf/DASHManifestHandler.cc:152-163 | On all inputs: a call takes as many entries of a URL off the list as it emits from the list if and only if no media segment of the batch has that URL or every entry with it is due. |
| DashManifestHandler.SharedUrlDropsAnExtra | src/mbstf/DASHManifestHandler.cc:152-163 | An instance where the condition fails: a media segment takes an extra object with its URL off the list unfetched. |
| DashManifestHandler.RefreshIsEmittedIffDue | src/mbstf/DASHManifestHandler.cc:140-149 | With a media segment available and a URL of its own, the refresh is in the batch if and only if its time has come. |
| DashManifestHandler.RefreshIsDueAfterEveryUpdate | src/mbstf/DASHManifestHandler.cc:140-149 | On all inputs: once the refresh time has passed, the first batch after any update contains another refresh. |
| DashManifestHandler.RefreshTimeIsTheLater | src/mbstf/DASHManifestHandler.cc:140-149 | The refresh time is at least the expiry and at least reception plus update period, and is one of the two. |
| DashManifestHandler.DASHManifestHandler.constructor | src/mbstf/DASHManifestHandler.cc:46-66 | The extra list is the initialisation segments and, for pull distribution with an update period, the refresh. |
| DashManifestHandler.DASHManifestHandler.AddMpdRefresh | src/mbstf/DASHManifestHandler.cc:140-149 | Appends the refresh, due at the later of expiry and reception plus update period, exactly for pull distribution of an MPD with an update period. |
| DashManifestHandler.DASHManifestHandler.Update | src/mbstf/DASHManifestHandler.cc:186-198 | An update rebuilds the extra list from the new MPD and the old manifest object. |
| DashManifestHandler.DASHManifestHandler.RemoveExtraPullObjectsEntry | src/mbstf/DASHManifestHandler.cc:152-163 | The first entry with the URL goes, if there is one. |
| DashManifestHandler.DASHManifestHandler.NextIngestItems | src/mbstf/DASHManifestHandler.cc:72-138 | The clamp, sort and batch loops return the least of the later of start and now over all candidates, and one item for each candidate that attains it, in order, with its own URL and deadline; the epoch and nothing without candidates; and leave the extra list that the lemmas describe. |
| PullWorker.EverythingScheduledIsHeld | src/mbstf/ObjectManifestController.cc:143-183 | Over any run of rounds and downloads from any pool, every item is in the pool as often as it was before plus as often as it was scheduled: waiting, downloading, stored or failed. |
| PullWorker.SessionHoldsItemsAndBatches | src/mbstf/ObjectManifestController.cc:56-88 | The same from the pool of a session, one ingester with the items it was set up with. |
| PullWorker.RoundAcceptsTheBatch | src/mbstf/ObjectManifestController.cc:165-182 | One round adds exactly the batch to what the pool has accepted. |
| PullWorker.ItemsArrive | src/mbstf/ObjectManifestController.cc:172-182 | After a round, ingester k holds one more item: the kth, with a deadline four seconds after the clock. |
| PullWorker.StampedItemCanBeDownloaded | src/mbstf/ObjectManifestController.cc:178 | That deadline leaves a positive time-out of at most 4000 ms until a millisecond before it. |
| PullWorker.ObjectManifestController.GrowPool | src/mbstf/ObjectManifestController.cc:159-163 | The loop ends with at least the required number of ingesters; the old ones stay, the new ones are fresh and empty. |
| PullWorker.ObjectManifestController.HandOut | src/mbstf/ObjectManifestController.cc:172-182 | Item k, with a deadline counted from the clock, goes to ingester k, and to no other. |
| PullWorker.ObjectManifestController.WorkerRound | src/mbstf/ObjectManifestController.cc:143-183 | Schedule and pool together: the earliest batch, as described under `NextIngestItems`, is handed out in order to distinct ingesters, each of which gains its item with four seconds to download it; the loop stops exactly when there is no segment left. |
| PushObjectIngester.Request.AddBodyBlock | src/mbstf/PushObjectIngester.cc:68-76 | The body received so far grows by the block, and the size is its length. |
| PushObjectIngester.Request.ProcessRequest | src/mbstf/PushObjectIngester.cc:110-154 | The stored body is all bytes in order of arrival, in the size reserved; URL, key and metadata id are as described under the lemmas. |
| PushObjectIngester.PushedLocationSwapsBack | src/mbstf/PushObjectIngester.cc:117-136 | A pushed path is announced as the distribution base and the path, and swapping the bases back gives the stored URL. |
| PushObjectIngester.PushedObjectIsQueuedAgain | src/mbstf/PushObjectIngester.cc:136-150 | Two fetches of a pushed object by its id queue it twice. |
| Factories.RegistryIsSortedNewestFirst | src/mbstf/ManifestHandlerFactory.cc:40-51 | After any registrations the list holds every constructor once, in falling priority, newest first among equals. |
| Factories.LowerBound | src/mbstf/ControllerFactory.cc:39-44 | The binary search returns the one position that separates higher priorities from the rest. |
| Factories.InsertByPriority | src/mbstf/ControllerFactory.cc:39-44 | Inserting there yields the list of the registrations with the new one. |
| Factories.SearchFindsTheChampion | src/mbstf/ManifestHandlerFactory.cc:59-71 | The first constructor of the list that does not decline is the highest-priority, latest-registered one that does not decline. |
| Factories.ChampionIsBest | src/mbstf/ManifestHandlerFactory.cc:59-71 | That one beats every other that does not decline by priority or, among equals, by being registered later; there is none exactly when all decline. |
| Factories.ControllerFactory.RegisterController | src/mbstf/ControllerFactory.cc:39-44 | The list stays the one of the registrations. |
| Factories.ControllerFactory.MakeController | src/mbstf/ControllerFactory.cc:46-62 | The answer, a controller or a runtime error, is the champion's; null if all decline. |
| Factories.ManifestHandlerFactory.RegisterManifestHandler | src/mbstf/ManifestHandlerFactory.cc:40-51 | The list of the content type, made if need be, stays the one of its registrations. |
| Factories.ManifestHandlerFactory.MakeManifestHandler | src/mbstf/ManifestHandlerFactory.cc:53-75 | The answer is that of the media type's champion, or failing that of the fallback's; a runtime error ends the search; one round, or two. |
| SessionUrls.PulledUrlIsManifestUrl | src/mbstf/ObjectManifestController.cc:218-261 | Whatever a valid PULL session fetches has the manifest URL, and how many items it fetches. |
| SessionUrls.RelativePullUrl | src/mbstf/ObjectManifestController.cc:70-82 | A relative pull URL: one item, fetched at base, one slash and name, whatever slashes base and path have at the joint and the path at its end; and that is the manifest URL. |
| SessionUrls.OtherPullUrls | src/mbstf/ObjectManifestController.cc:73-76 | An absolute pull URL is neither fetched nor the manifest; without an ingest base the URL is left empty. |
| SessionUrls.NextEntry | src/mbstf/ObjectManifestController.cc:218-258 | Of several entries, each one that is neither missing nor absolute makes an item, and the last of them is the manifest. |
| SessionUrls.PushIdIsManifest | src/mbstf/ObjectManifestController.cc:218-258 | A relative push id is the manifest, under base, one slash and name; an absolute one is not. |
| SessionUrls.PushedPathIsManifestUrlIff | src/mbstf/ObjectManifestController.cc:292-311 | An accepted pushed path is stored under the manifest URL if and only if the id is relative and does not end in a slash, or is "/". |
| SessionUrls.PushedNameIsNeverManifestUrl | src/mbstf/PushObjectIngester.cc:117-120 | Without a slash in front an accepted push never has the manifest URL. |
| SessionUrls.TrimmedTail | src/mbstf/utilities.cc:27-33 | For every path: trimming takes off just the slash in front if and only if there is none at the end, or the path is "/". |
| SessionUrls.TrimmedExactly | src/mbstf/utilities.cc:27-33 | Trimming takes off one slash in front and one at the end, if they are there, and nothing else. |
| SessionUrls.BasesSwapBackIff | src/mbstf/ObjectListPackager.cc:167-177 | Swapping the bases back recovers the fetched URL if and only if it was under the ingest base or under neither. |
| SessionUrls.BuiltLocationSwapsBack | src/mbstf/ObjectListPackager.cc:167-177 | A URL made of ingest base and suffix is announced as distribution base and suffix, and back. |
| SessionUrls.PulledLocationSwapsBack | src/mbstf/ObjectManifestController.cc:70-82 | Every item of every session with nonempty bases carries them, is announced as the distribution base plus the suffix after the ingest base, and swapping back gives its URL. |
| SessionUrls.LocationWithoutBases | src/mbstf/ObjectListPackager.cc:164-177 | With either base missing or empty the fetched URL is announced. |
| SessionUrls.DownloadIsAnnounced | src/mbstf/PullObjectIngester.cc:142-174 | What a download adds to the store is announced under the distribution base if it was fetched, or redirected, under the ingest base, and the swap can be undone; otherwise as it was fetched. |
| SessionUrls.PulledObjectIsAnnounced | src/mbstf/PullObjectIngester.cc:142-174 | End to end for every item of a session with nonempty bases: stored without a redirect, it is announced as the distribution base and what followed the ingest base. |
| SessionUrls.ObjectManifestController.Prepare | src/mbstf/ObjectManifestController.cc:43-54 | Validation succeeds exactly for the valid sessions; then push id, ingest base and fetch list are set. |
| SessionUrls.ObjectManifestController.InitPullObjectIngester | src/mbstf/ObjectManifestController.cc:56-88 | The loop makes one item per usable entry, in order. |
| SessionUrls.ObjectManifestController.UpdateManifestUrl | src/mbstf/ObjectManifestController.cc:218-258 | The loop computes the last relative pull URL, overridden by a relative push id. |
| SessionUrls.ObjectManifestController.ValidatePushUrl | src/mbstf/ObjectManifestController.cc:292-311 | Acceptance is equality up to a slash in front that only one side has. |
| CurlHeaders.ChainIsRead | src/mbstf/Curl.cc:193-261 | Over any chain of well-formed responses: status code and protocol of the last, the last Location of the last 301 or 308 that has one, the last max-age directive or the value before; trailers have no say. |
| CurlHeaders.RedirectIsRemembered | src/mbstf/Curl.cc:209-214 | In any chain, after the last 301 or 308 response with a "Location:" or "location:" header, the redirect URL is the text of the last such header without the spaces in front. |
| CurlHeaders.OtherRedirectsAreIgnored | src/mbstf/Curl.cc:209-214 | A chain in which no 301 or 308 response has such a header leaves the redirect URL alone, whatever other responses say. |
| CurlHeaders.MaxAgeIsRemembered | src/mbstf/Curl.cc:215-243 | In any chain, max-age is the number after the first "max-age=", or failing that the first "Max-age=", of the last Cache-Control header with either, up to a comma, space or line end; zero if it is no number. |
| CurlHeaders.ResponseIsRead | src/mbstf/Curl.cc:193-261 | The same for one response, from any state between responses. |
| CurlHeaders.StatusTextIsRead | src/mbstf/Curl.cc:169-191 | A status line put together from version, spaces, code and reason is taken apart again. |
| CurlHeaders.NoSpaceInStatusLine | src/mbstf/Curl.cc:169-173 | A status line that ends with its version is no status line; the version is not remembered. |
| CurlHeaders.NoCodeInStatusLine | src/mbstf/Curl.cc:174-180 | Nor is one with nothing but spaces after the version, which is remembered. |
| CurlHeaders.NoNumberInStatusLine | src/mbstf/Curl.cc:183-190 | A code that is no number throws, with the version already changed. |
| CurlHeaders.OtherLinesAreKept | src/mbstf/Curl.cc:195-196 | A line that does not end in CR and LF is left as it is. |
| CurlHeaders.HeadersAreRead | src/mbstf/Curl.cc:204-244 | The header section leaves its last permanent Location and its last max-age. |
| CurlHeaders.TrailersAreIgnored | src/mbstf/Curl.cc:245-257 | Trailers, and lines in front of the first status line, change nothing but the parser state. |
| CurlHeaders.StaleMaxAgeSurvives | src/mbstf/Curl.cc:91-95 | A download in which no Cache-Control header has a max-age directive keeps the max-age of an earlier one. |
| CurlHeaders.Curl.ExtractProtocolAndStatusCode | src/mbstf/Curl.cc:169-191 | What is set on each way out, the failing conversion included. |
| CurlHeaders.Curl.ProcessHeaderLine | src/mbstf/Curl.cc:193-261 | One line is one transition of the state machine. |
| CurlHeaders.Curl.Get | src/mbstf/Curl.cc:71-96 | A download resets everything but max-age and folds the transitions over its lines. |

## Left out

- PipelineDrain.SessionDrains: is stated for sessions without a dropped packager; `DroppedSessionNeverDrains` says what happens otherwise.
- PipelineReuse.StoringIsSafeIff: is stated for a packager with a destination; without one nothing leaves the list.
- StreamingController.ObjectStreamingController.constructor: what is stored before the subscription to the store is left out, as assumed above.
- StreamingController.ObjectStreamingController.SendSelected: the media type and expiry given to the transmitter are left out.
- ObjectListPackager.ObjectListPackager.Send: the lookups and the announced location of the same lines are in `SendSelected`; the expiry given to the transmitter is left out.
- ObjectListPackager.ObjectListPackager.DoObjectPackage: the same, and the closing `run_one` is the step `TransmitterCompletes`.
- DashManifestHandler.EmittedIsRemoved: is stated for URLs that no media segment has; `ExtrasLeaveWhenEmittedIff` and `RemovalCounts` cover shared URLs.
- EventDelivery.SendEventSynchronous: the tables are a value during one delivery; handlers that edit the table they are called from are not modelled.
- SessionUrls.PushedPathIsManifestUrlIff: an empty push id has no first character here, where the code takes the front of an empty string; the prefix of the push server always ends in a slash (src/mbstf/PushObjectIngester.cc:385-387).
- CurlHeaders.Curl.ProcessHeaderLine: a Location header with nothing but spaces gives the empty URL here, where the code reads past the end of the view.
- PullObjectIngester.PullObjectIngester.EndDownload: the bytes, media type, times and entity tag of what is stored are left out.
- Object data, media types, expiry times of stored objects, stale object queries and the FLUTE file expiry.
- The controller of SINGLE mode, which never deletes objects.
- A refused manifest update while a packager thread is busy: the destructor waits, so the step is blocked until both threads are at rest.
- Exceptions other than failing lookups inside the packager worker, and the state of a mutex after an exception in a handler.
- `Subscriber` and `SubscriptionService` copy and move, except the copy of a subscriber; the order of the names that `subscribedEvents` returns.
- `nextIngestItems` on the pull thread and `update` on the event thread of the store use the MPD and the extra list without a common lock; here each is one atomic call.
- Accesses to one object's metadata that race without any lock, such as the mark against a replacement at the same moment.
- Cancelling and joining threads, condition variables and waiting times; `sleep_until` in the pull worker.
- The exception that the MPD library throws for a malformed segment URL, and `m_refreshMpd`, which nothing reads.
- MPD parsing and segment generation, libcurl, libmicrohttpd and libflute: their results are parameters.
- Constructors with side effects that decline afterwards: an answer in the factories is a value.
- Open5GS wrappers, configuration, NF registration and load, bit rates, logging, UUIDs and HTTP dates.
