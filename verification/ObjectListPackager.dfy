/** The FLUTE packager of one distribution session: a work list in deadline order, one object in
    flight, and a queue of ObjectSendCompleted events. */
module ObjectListPackager {
  import opened Basics
  import opened StableOrder

  datatype PackageItem = PackageItem(objectId: string, deadline: Deadline)

  function DeadlineOf(item: PackageItem): Deadline {
    item.deadline
  }

  /** Where the worker thread stands in `doObjectPackage`. It holds the list mutex in no phase:
      `Selected` and `Sent` are the two halves of the unlocked window. */
  datatype Phase = Idle | Selected(item: PackageItem) | Sent(item: PackageItem)

  /** `events` and `dispatching` belong to the SubscriptionService base: the queued
      ObjectSendCompleted events and the one its thread is delivering. `sent` and `announced` are
      the history of transmissions and of completion events. */
  datatype PackagerState = PackagerState(
    items: seq<PackageItem>,
    phase: Phase,
    queued: bool,
    queuedToi: nat,
    queuedObjectId: string,
    events: seq<string>,
    dispatching: Option<string>,
    sent: seq<string>,
    announced: seq<string>)

  function NewPackager(items: seq<PackageItem>): PackagerState {
    PackagerState(StableSort(DeadlineOf, items), Idle, false, 0, "", [], None, [], [])
  }

  function AddItem(p: PackagerState, item: PackageItem): PackagerState {
    p.(items := Insert(DeadlineOf, p.items, item))
  }

  predicate CanSelect(p: PackagerState) {
    p.phase.Idle? && p.items != [] && !p.queued
  }

  function SelectFront(p: PackagerState): PackagerState
    requires CanSelect(p)
  {
    p.(phase := Selected(p.items[0]))
  }

  function Transmit(p: PackagerState, toi: nat): PackagerState
    requires p.phase.Selected?
  {
    var id := p.phase.item.objectId;
    p.(phase := Sent(p.phase.item), queuedObjectId := id, queued := true, queuedToi := toi, sent := p.sent + [id])
  }

  function PopFront(p: PackagerState): PackagerState
    requires p.phase.Sent? && p.items != []
  {
    p.(phase := Idle, items := p.items[1..])
  }

  /** The transmitter's completion callback, run by the worker itself between two rounds. */
  function Complete(p: PackagerState, toi: nat): PackagerState
    requires p.phase.Idle?
  {
    if p.queuedToi == toi then
      p.(queued := false, events := p.events + [p.queuedObjectId], announced := p.announced + [p.queuedObjectId])
    else p
  }

  function BeginDispatch(p: PackagerState): PackagerState
    requires p.events != [] && p.dispatching.None?
  {
    p.(dispatching := Some(p.events[0]), events := p.events[1..])
  }

  function EndDispatch(p: PackagerState): PackagerState
    requires p.dispatching.Some?
  {
    p.(dispatching := None)
  }

  // ----- The invariant -----

  function InFlight(p: PackagerState): seq<string> {
    if p.queued then [p.queuedObjectId] else []
  }

  /** Completions are announced in the order of transmission, and what is not announced yet is
      the one object in flight. */
  ghost predicate AnnouncedInOrder(p: PackagerState) {
    p.announced + InFlight(p) == p.sent
  }

  ghost predicate PackagerInv(p: PackagerState) {
    && Ordered(DeadlineOf, p.items)
    && AnnouncedInOrder(p)
    && (p.phase.Selected? ==> !p.queued && p.items != [])
    && (p.phase.Sent? ==> p.queued && p.queuedObjectId == p.phase.item.objectId && p.items != [])
  }

  datatype PackagerStep =
    | AddStep(item: PackageItem)
    | SelectStep
    | TransmitStep(toi: nat)
    | PopStep
    | CompleteStep(toi: nat)
    | BeginDispatchStep
    | EndDispatchStep

  predicate Enabled(p: PackagerState, step: PackagerStep) {
    match step
    case AddStep(_) => true
    case SelectStep => CanSelect(p)
    case TransmitStep(_) => p.phase.Selected?
    case PopStep => p.phase.Sent? && p.items != []
    case CompleteStep(_) => p.phase.Idle?
    case BeginDispatchStep => p.events != [] && p.dispatching.None?
    case EndDispatchStep => p.dispatching.Some?
  }

  function PackagerNext(p: PackagerState, step: PackagerStep): PackagerState
    requires Enabled(p, step)
  {
    match step
    case AddStep(item) => AddItem(p, item)
    case SelectStep => SelectFront(p)
    case TransmitStep(toi) => Transmit(p, toi)
    case PopStep => PopFront(p)
    case CompleteStep(toi) => Complete(p, toi)
    case BeginDispatchStep => BeginDispatch(p)
    case EndDispatchStep => EndDispatch(p)
  }

  /** The transmitter reports each TOI once: the TOI of the last object sent is not reported
      again after its completion. Reports of any other TOI are unrestricted. */
  predicate CompletedOnce(p: PackagerState, step: PackagerStep) {
    step.CompleteStep? && step.toi == p.queuedToi ==> p.queued
  }

  predicate PackagerRun(p: PackagerState, steps: seq<PackagerStep>)
    decreases |steps|
  {
    steps == [] || (Enabled(p, steps[0]) && CompletedOnce(p, steps[0]) && PackagerRun(PackagerNext(p, steps[0]), steps[1..]))
  }

  function AfterPackagerRun(p: PackagerState, steps: seq<PackagerStep>): PackagerState
    requires PackagerRun(p, steps)
    decreases |steps|
  {
    if steps == [] then p else AfterPackagerRun(PackagerNext(p, steps[0]), steps[1..])
  }

  lemma PackagerStepKeepsInv(p: PackagerState, step: PackagerStep)
    requires PackagerInv(p) && Enabled(p, step) && CompletedOnce(p, step)
    ensures PackagerInv(PackagerNext(p, step))
  {
    if step.AddStep? {
      InsertKeepsOrder(DeadlineOf, p.items, step.item);
    }
  }

  lemma {:induction false} PackagerRunKeepsInv(p: PackagerState, steps: seq<PackagerStep>)
    requires PackagerInv(p) && PackagerRun(p, steps)
    ensures PackagerInv(AfterPackagerRun(p, steps))
    decreases |steps|
  {
    if steps != [] {
      PackagerStepKeepsInv(p, steps[0]);
      PackagerRunKeepsInv(PackagerNext(p, steps[0]), steps[1..]);
    }
  }

  /** In every run, whatever the deadlines and however the adds interleave, at most one object is
      in flight, completions are announced in the order of transmission, and a report of a TOI
      other than the one in flight changes nothing. */
  lemma RunAnnouncesWhatWasSent(items: seq<PackageItem>, steps: seq<PackagerStep>)
    requires PackagerRun(NewPackager(items), steps)
    ensures var p := AfterPackagerRun(NewPackager(items), steps);
            && p.announced + InFlight(p) == p.sent
            && |p.sent| - |p.announced| == (if p.queued then 1 else 0)
            && forall toi: nat :: p.phase.Idle? && toi != p.queuedToi ==> Complete(p, toi) == p
  {
    StableSortIsStable(DeadlineOf, items);
    PackagerRunKeepsInv(NewPackager(items), steps);
  }

  /** The assumption on the transmitter is exact: the callback does not look at `m_queued`, so a
      second report of the last TOI announces a completion that no transmission explains. */
  lemma CompletionKeepsOrderIffReportedOnce(p: PackagerState, toi: nat)
    requires PackagerInv(p) && p.phase.Idle?
    ensures AnnouncedInOrder(Complete(p, toi)) <==> CompletedOnce(p, CompleteStep(toi))
  {
  }

  /** The completions that are still to be delivered, the one being delivered first. */
  function Undelivered(p: PackagerState): seq<string> {
    (if p.dispatching.Some? then [p.dispatching.value] else []) + p.events
  }

  predicate IsSuffix(s: seq<string>, all: seq<string>) {
    |s| <= |all| && all[|all| - |s|..] == s
  }

  lemma SuffixGrows(s: seq<string>, all: seq<string>, id: string)
    requires IsSuffix(s, all)
    ensures IsSuffix(s + [id], all + [id])
  {
  }

  lemma SuffixShrinks(s: seq<string>, all: seq<string>)
    requires IsSuffix(s, all) && s != []
    ensures IsSuffix(s[1..], all)
  {
  }

  /** Completions are delivered in the order in which they were announced. */
  predicate DeliveredInOrder(p: PackagerState) {
    IsSuffix(Undelivered(p), p.announced)
  }

  lemma StepDeliversInOrder(p: PackagerState, step: PackagerStep)
    requires DeliveredInOrder(p) && Enabled(p, step)
    ensures DeliveredInOrder(PackagerNext(p, step))
  {
    hide Insert, IsSuffix;
    var q := PackagerNext(p, step);
    if step.CompleteStep? && q != p {
      assert Undelivered(q) == Undelivered(p) + [p.queuedObjectId];
      SuffixGrows(Undelivered(p), p.announced, p.queuedObjectId);
    } else if step.EndDispatchStep? {
      assert Undelivered(q) == Undelivered(p)[1..];
      SuffixShrinks(Undelivered(p), p.announced);
    } else {
      assert Undelivered(q) == Undelivered(p);
    }
  }

  lemma {:induction false} RunDeliversFrom(p: PackagerState, steps: seq<PackagerStep>)
    requires DeliveredInOrder(p) && PackagerRun(p, steps)
    ensures DeliveredInOrder(AfterPackagerRun(p, steps))
    decreases |steps|
  {
    hide DeliveredInOrder, PackagerNext, Enabled;
    if steps != [] {
      StepDeliversInOrder(p, steps[0]);
      RunDeliversFrom(PackagerNext(p, steps[0]), steps[1..]);
    }
  }

  /** In every run, what is left to be delivered is the end of what was announced, in that order. */
  lemma {:induction false} RunDeliversInOrder(items: seq<PackageItem>, steps: seq<PackagerStep>)
    requires PackagerRun(NewPackager(items), steps)
    ensures var p := AfterPackagerRun(NewPackager(items), steps);
            var left := (if p.dispatching.Some? then [p.dispatching.value] else []) + p.events;
            |left| <= |p.announced| && p.announced[|p.announced| - |left|..] == left
  {
    NothingUndelivered(items);
    hide NewPackager, PackagerRun, AfterPackagerRun;
    RunDeliversFrom(NewPackager(items), steps);
  }

  lemma NothingUndelivered(items: seq<PackageItem>)
    ensures DeliveredInOrder(NewPackager(items))
  {
    hide StableSort;
  }

  // ----- The unlocked window -----

  /** Nothing that arrived during the window sorts strictly ahead of the selected item. */
  predicate WindowIsSafe(selected: PackageItem, window: seq<PackageItem>) {
    forall i :: 0 <= i < |window| ==> !Before(window[i].deadline, selected.deadline)
  }

  /** `doObjectPackage` selects the front, unlocks, sends it, locks again and pops the front. The
      item popped is the item sent exactly when nothing that arrived in between has an earlier
      deadline; then every other item survives, in its place. Otherwise an item that was never
      sent is lost and the one that was sent stays in the list. */
  lemma PopRemovesWhatWasSentIff(items: seq<PackageItem>, window: seq<PackageItem>)
    requires items != [] && Ordered(DeadlineOf, items)
    ensures var r := InsertAll(DeadlineOf, items, window);
            && (r[0] == items[0] <==> WindowIsSafe(items[0], window))
            && (WindowIsSafe(items[0], window) ==> r[1..] == InsertAll(DeadlineOf, items[1..], window))
            && (!WindowIsSafe(items[0], window) ==>
                  && r[0] in window && Before(r[0].deadline, items[0].deadline)
                  && items[0] in r[1..]
                  && multiset(r[1..]) == multiset(items) + multiset(window) - multiset{r[0]})
  {
    var r := InsertAll(DeadlineOf, items, window);
    if WindowIsSafe(items[0], window) {
      FrontSurvives(DeadlineOf, items, window);
    } else {
      var i :| 0 <= i < |window| && Before(window[i].deadline, items[0].deadline);
      FrontDisplaced(DeadlineOf, items, window, i);
      InsertAllElements(DeadlineOf, items, window);
      assert r == [r[0]] + r[1..];
      assert items[0] in multiset(items) + multiset(window) - multiset{r[0]};
    }
  }

  // ----- The object -----

  class ObjectListPackager {
    var packageItems: seq<PackageItem>
    var phase: Phase
    var queued: bool
    var queuedToi: nat
    var queuedObjectId: string
    var asyncEvents: seq<string>
    var dispatching: Option<string>
    ghost var sent: seq<string>
    ghost var announced: seq<string>

    ghost function State(): PackagerState
      reads this
    {
      PackagerState(packageItems, phase, queued, queuedToi, queuedObjectId, asyncEvents, dispatching, sent, announced)
    }

    ghost predicate Valid()
      reads this
    {
      PackagerInv(State())
    }

    constructor (objectsToPackage: seq<PackageItem>)
      ensures State() == NewPackager(objectsToPackage) && Valid()
      ensures IsStableSortOf(DeadlineOf, packageItems, objectsToPackage) && phase.Idle? && !queued
      ensures asyncEvents == sent == announced == [] && dispatching.None?
    {
      packageItems := objectsToPackage;
      phase, queued, queuedToi, queuedObjectId := Idle, false, 0, "";
      asyncEvents, dispatching, sent, announced := [], None, [], [];
      new;
      SortListByPolicy();
      StableSortIsStable(DeadlineOf, objectsToPackage);
    }

    method SortListByPolicy()
      modifies this`packageItems
      ensures IsStableSortOf(DeadlineOf, packageItems, old(packageItems))
      ensures packageItems == StableSort(DeadlineOf, old(packageItems))
    {
      StableSortIsUnique(DeadlineOf, StableSort(DeadlineOf, packageItems), packageItems);
      packageItems := StableSort(DeadlineOf, packageItems);
    }

    method Add(item: PackageItem)
      requires Valid()
      modifies this`packageItems
      ensures Valid() && State() == AddItem(old(State()), item)
      ensures IsStableSortOf(DeadlineOf, packageItems, old(packageItems) + [item])
    {
      SortedListIsItsOwnSort(DeadlineOf, packageItems);
      InsertKeepsOrder(DeadlineOf, packageItems, item);
      packageItems := packageItems + [item];
      assert packageItems[..|packageItems| - 1] == old(packageItems);
      SortListByPolicy();
    }

    method Select()
      requires Valid() && CanSelect(State())
      modifies this`phase
      ensures Valid() && State() == SelectFront(old(State()))
    {
      phase := Selected(packageItems[0]);
    }

    method Send(toi: nat)
      requires Valid() && phase.Selected?
      modifies this
      ensures Valid() && State() == Transmit(old(State()), toi)
    {
      queuedObjectId := phase.item.objectId;
      queued := true;
      queuedToi := toi;
      phase := Sent(phase.item);
      sent := sent + [queuedObjectId];
    }

    method Pop()
      requires Valid() && phase.Sent?
      modifies this
      ensures Valid() && State() == PopFront(old(State()))
    {
      packageItems := packageItems[1..];
      phase := Idle;
    }

    /** The list of announcements stays right exactly when the TOI was not reported before. */
    method OnCompletion(toi: nat)
      requires Valid() && phase.Idle?
      modifies this
      ensures State() == Complete(old(State()), toi)
      ensures Valid() == CompletedOnce(old(State()), CompleteStep(toi))
    {
      CompletionKeepsOrderIffReportedOnce(State(), toi);
      if queuedToi == toi {
        queued := false;
        asyncEvents := asyncEvents + [queuedObjectId];
        announced := announced + [queuedObjectId];
      }
    }

    method TakeEvent() returns (objectId: string)
      requires Valid() && asyncEvents != [] && dispatching.None?
      modifies this
      ensures Valid() && State() == BeginDispatch(old(State()))
      ensures objectId == old(asyncEvents)[0]
    {
      objectId := asyncEvents[0];
      asyncEvents := asyncEvents[1..];
      dispatching := Some(objectId);
    }

    method EventHandled()
      requires Valid() && dispatching.Some?
      modifies this`dispatching
      ensures Valid() && State() == EndDispatch(old(State()))
    {
      dispatching := None;
    }

    /** One round of the worker, with the items that other threads add while the mutex is
        released given by `window`. */
    method DoObjectPackage(window: seq<PackageItem>, toi: nat)
      requires Valid() && phase.Idle?
      modifies this
      ensures Valid() && phase.Idle?
      ensures !old(CanSelect(State())) ==> unchanged(this)
      ensures old(CanSelect(State())) ==>
                && sent == old(sent) + [old(packageItems)[0].objectId]
                && queued && queuedToi == toi && queuedObjectId == old(packageItems)[0].objectId
                && announced == old(announced) && asyncEvents == old(asyncEvents)
                && packageItems == InsertAll(DeadlineOf, old(packageItems), window)[1..]
                && (WindowIsSafe(old(packageItems)[0], window) ==>
                      packageItems == InsertAll(DeadlineOf, old(packageItems)[1..], window))
    {
      if packageItems != [] && !queued {
        var items := packageItems;
        Select();
        ghost var before := State();
        var i := 0;
        while i < |window|
          invariant 0 <= i <= |window| && Valid()
          invariant State() == before.(items := packageItems)
          invariant InsertAll(DeadlineOf, items, window) == InsertAll(DeadlineOf, packageItems, window[i..])
        {
          assert window[i..][1..] == window[i + 1..];
          Add(window[i]);
          i := i + 1;
        }
        assert window[i..] == [];
        Send(toi);
        Pop();
        PopRemovesWhatWasSentIff(items, window);
      }
    }
  }
}
