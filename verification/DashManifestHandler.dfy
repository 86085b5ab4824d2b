/** The pull schedule of a DASH presentation: which segments to fetch next, and when. */
module DashManifestHandler {
  import opened Basics
  import opened StableOrder
  import opened PullObjectIngester

  /** Availability of one segment; `end` is the deadline of its download. */
  datatype Segment = Segment(start: int, url: string, end: Option<int>)

  function StartOf(s: Segment): Deadline {
    Some(s.start)
  }

  function Clamp(s: Segment, now: int): Segment {
    if s.start < now then s.(start := now) else s
  }

  function ClampAll(segments: seq<Segment>, now: int): (r: seq<Segment>)
    ensures |r| == |segments|
    ensures forall i :: 0 <= i < |r| ==> r[i] == Clamp(segments[i], now)
  {
    if segments == [] then [] else [Clamp(segments[0], now)] + ClampAll(segments[1..], now)
  }

  /** The segments that start together with the first of an ordered list. */
  function Leaders(segments: seq<Segment>, start: int): seq<Segment> {
    if segments == [] || segments[0].start != start then []
    else [segments[0]] + Leaders(segments[1..], start)
  }

  function RemoveEntry(extras: seq<Segment>, url: string): seq<Segment> {
    if extras == [] then []
    else if extras[0].url == url then extras[1..]
    else [extras[0]] + RemoveEntry(extras[1..], url)
  }

  function RemoveEntries(extras: seq<Segment>, batch: seq<Segment>): seq<Segment>
    decreases |batch|
  {
    if batch == [] then extras else RemoveEntries(RemoveEntry(extras, batch[0].url), batch[1..])
  }

  /** The clamped candidates in order of availability. */
  function Schedule(media: seq<Segment>, extras: seq<Segment>, now: int): (r: seq<Segment>)
    ensures |r| == |media| + |extras|
  {
    StableSort(StartOf, ClampAll(media + extras, now))
  }

  function Batch(media: seq<Segment>, extras: seq<Segment>, now: int): seq<Segment> {
    var schedule := Schedule(media, extras, now);
    if schedule == [] then [] else Leaders(schedule, schedule[0].start)
  }

  function ExtrasAfter(media: seq<Segment>, extras: seq<Segment>, now: int): seq<Segment> {
    RemoveEntries(extras, Batch(media, extras, now))
  }

  // ----- Fetch time and batch -----

  /** The minimum over all segments of the later of start and now. */
  ghost predicate IsEarliest(time: int, segments: seq<Segment>, now: int) {
    && (exists i :: 0 <= i < |segments| && time == if segments[i].start < now then now else segments[i].start)
    && (forall i :: 0 <= i < |segments| ==> time <= if segments[i].start < now then now else segments[i].start)
  }

  lemma {:induction false} LeadersAreTheClass(segments: seq<Segment>, start: int)
    requires Ordered(StartOf, segments)
    requires forall i :: 0 <= i < |segments| ==> start <= segments[i].start
    ensures Leaders(segments, start) == Class(StartOf, segments, Some(start))
  {
    if segments != [] {
      if segments[0].start == start {
        LeadersAreTheClass(segments[1..], start);
      } else {
        forall i | 0 <= i < |segments| ensures segments[i].start != start {
          assert i > 0 ==> !Before(StartOf(segments[i]), StartOf(segments[0]));
        }
        NobodyInClass(segments, start);
      }
    }
  }

  lemma {:induction false} NobodyInClass(segments: seq<Segment>, start: int)
    requires forall i :: 0 <= i < |segments| ==> segments[i].start != start
    ensures Class(StartOf, segments, Some(start)) == []
  {
    if segments != [] {
      NobodyInClass(segments[1..], start);
    }
  }

  lemma OrderedStartsWithItsEarliest(segments: seq<Segment>)
    requires Ordered(StartOf, segments) && segments != []
    ensures forall i :: 0 <= i < |segments| ==> segments[0].start <= segments[i].start
  {
  }

  /** The schedule is an ordered rearrangement of the clamped candidates that keeps ties in place. */
  lemma ScheduleOfCandidates(media: seq<Segment>, extras: seq<Segment>, now: int)
    ensures Ordered(StartOf, Schedule(media, extras, now))
    ensures forall s :: s in Schedule(media, extras, now) <==> s in ClampAll(media + extras, now)
    ensures forall d :: Class(StartOf, Schedule(media, extras, now), d) == Class(StartOf, ClampAll(media + extras, now), d)
  {
    var all := ClampAll(media + extras, now);
    StableSortIsStable(StartOf, all);
    StableSortElements(StartOf, all);
    hide StableSort, Class, Ordered;
    forall s ensures s in Schedule(media, extras, now) <==> s in all {
      assert s in all <==> s in multiset(all);
      assert s in Schedule(media, extras, now) <==> s in multiset(Schedule(media, extras, now));
    }
  }

  lemma ScheduleHeadIsEarliest(media: seq<Segment>, extras: seq<Segment>, now: int)
    requires media + extras != []
    ensures IsEarliest(Schedule(media, extras, now)[0].start, media + extras, now)
    ensures forall i :: 0 <= i < |Schedule(media, extras, now)| ==>
              Schedule(media, extras, now)[0].start <= Schedule(media, extras, now)[i].start
  {
    hide Schedule, Class, Ordered;
    var all, schedule := ClampAll(media + extras, now), Schedule(media, extras, now);
    ScheduleOfCandidates(media, extras, now);
    OrderedStartsWithItsEarliest(schedule);
    assert schedule[0] in all;
    forall i | 0 <= i < |all| ensures schedule[0].start <= Clamp((media + extras)[i], now).start {
      assert all[i] in schedule;
    }
  }

  /** A nonempty call announces the earliest possible fetch time over all media and extra segments,
      never before now, and its batch is exactly the segments that become available then. */
  lemma BatchIsEverythingEarliest(media: seq<Segment>, extras: seq<Segment>, now: int)
    requires media + extras != []
    ensures var time := Schedule(media, extras, now)[0].start;
            && IsEarliest(time, media + extras, now)
            && now <= time
            && Batch(media, extras, now) == Class(StartOf, ClampAll(media + extras, now), Some(time))
            && Batch(media, extras, now) != []
  {
    hide Schedule, Class, Ordered;
    var schedule := Schedule(media, extras, now);
    ScheduleOfCandidates(media, extras, now);
    ScheduleHeadIsEarliest(media, extras, now);
    LeadersAreTheClass(schedule, schedule[0].start);
  }

  /** The positions of the segments that start at `time`. */
  lemma {:induction false} ClassPositions(segments: seq<Segment>, time: int) returns (chosen: seq<nat>)
    ensures |chosen| == |Class(StartOf, segments, Some(time))|
    ensures forall i, j :: 0 <= i < j < |chosen| ==> chosen[i] < chosen[j]
    ensures forall k :: 0 <= k < |chosen| ==> chosen[k] < |segments| && Class(StartOf, segments, Some(time))[k] == segments[chosen[k]]
    ensures forall i: nat :: i in chosen <==> i < |segments| && segments[i].start == time
  {
    if segments == [] {
      chosen := [];
    } else {
      var front, last := segments[..|segments| - 1], segments[|segments| - 1];
      hide Class;
      chosen := ClassPositions(front, time);
      assert segments == front + [last];
      ClassAppend(StartOf, front, [last], Some(time));
      SingletonClass(StartOf, last, Some(time));
      if last.start == time {
        chosen := chosen + [|front|];
      }
    }
  }

  /** The batch in terms of the candidates alone: those, in order, for which the later of start and
      now is the fetch time. */
  lemma {:induction false} BatchIsChosen(media: seq<Segment>, extras: seq<Segment>, now: int) returns (chosen: seq<nat>)
    requires media + extras != []
    ensures |chosen| == |Batch(media, extras, now)|
    ensures forall i, j :: 0 <= i < j < |chosen| ==> chosen[i] < chosen[j]
    ensures forall k :: 0 <= k < |chosen| ==>
              && chosen[k] < |media + extras|
              && Batch(media, extras, now)[k].url == (media + extras)[chosen[k]].url
              && Batch(media, extras, now)[k].end == (media + extras)[chosen[k]].end
    ensures forall i: nat :: (i in chosen) ==
              (i < |media + extras| &&
               Schedule(media, extras, now)[0].start == if (media + extras)[i].start < now then now else (media + extras)[i].start)
  {
    hide Batch, Schedule, Class;
    BatchIsEverythingEarliest(media, extras, now);
    chosen := ClassPositions(ClampAll(media + extras, now), Schedule(media, extras, now)[0].start);
  }

  // ----- Extra pull objects -----

  function CountUrl(segments: seq<Segment>, url: string): nat {
    if segments == [] then 0 else (if segments[0].url == url then 1 else 0) + CountUrl(segments[1..], url)
  }

  lemma {:induction false} CountUrlAppend(a: seq<Segment>, b: seq<Segment>, url: string)
    ensures CountUrl(a + b, url) == CountUrl(a, url) + CountUrl(b, url)
  {
    if a == [] {
      assert a + b == b;
    } else {
      assert (a + b)[1..] == a[1..] + b;
      CountUrlAppend(a[1..], b, url);
    }
  }

  lemma {:induction false} CountUrlOfClamped(segments: seq<Segment>, now: int, url: string)
    ensures CountUrl(ClampAll(segments, now), url) == CountUrl(segments, url)
  {
    if segments != [] {
      CountUrlOfClamped(segments[1..], now, url);
    }
  }

  lemma {:induction false} CountUrlOfClass(segments: seq<Segment>, d: Deadline, url: string)
    ensures CountUrl(Class(StartOf, segments, d), url) <= CountUrl(segments, url)
  {
    if segments != [] {
      CountUrlOfClass(segments[1..], d, url);
      CountUrlAppend(IfKey(StartOf, segments[0], d), Class(StartOf, segments[1..], d), url);
      assert [segments[0]][1..] == [];
    }
  }

  lemma {:induction false} CountUrlAfterRemoval(extras: seq<Segment>, removed: string, url: string)
    ensures CountUrl(RemoveEntry(extras, removed), url)
         == if url == removed && CountUrl(extras, url) > 0 then CountUrl(extras, url) - 1 else CountUrl(extras, url)
  {
    if extras != [] {
      CountUrlAfterRemoval(extras[1..], removed, url);
      if extras[0].url != removed {
        assert ([extras[0]] + RemoveEntry(extras[1..], removed))[1..] == RemoveEntry(extras[1..], removed);
      }
    }
  }

  /** On all inputs: each emitted segment takes one entry with its URL off the list, if any is left. */
  lemma {:induction false} RemovalCounts(extras: seq<Segment>, batch: seq<Segment>, url: string)
    ensures CountUrl(RemoveEntries(extras, batch), url)
         == if CountUrl(batch, url) < CountUrl(extras, url) then CountUrl(extras, url) - CountUrl(batch, url) else 0
    decreases |batch|
  {
    if batch != [] {
      CountUrlAfterRemoval(extras, batch[0].url, url);
      RemovalCounts(RemoveEntry(extras, batch[0].url), batch[1..], url);
    }
  }

  /** For a URL that no media segment has, what is emitted is what is removed. */
  lemma EmittedIsRemoved(media: seq<Segment>, extras: seq<Segment>, now: int, url: string)
    requires CountUrl(media, url) == 0
    ensures CountUrl(Batch(media, extras, now), url) + CountUrl(ExtrasAfter(media, extras, now), url) == CountUrl(extras, url)
  {
    var batch := Batch(media, extras, now);
    RemovalCounts(extras, batch, url);
    if media + extras != [] {
      BatchIsEverythingEarliest(media, extras, now);
      CountUrlOfClass(ClampAll(media + extras, now), Some(Schedule(media, extras, now)[0].start), url);
      CountUrlOfClamped(media + extras, now, url);
      CountUrlAppend(media, extras, url);
    } else {
      assert extras == [] && batch == [];
    }
  }

  ghost predicate DistinctUrls(extras: seq<Segment>) {
    forall i, j :: 0 <= i < j < |extras| ==> extras[i].url != extras[j].url
  }

  predicate HasUrl(segments: seq<Segment>, url: string) {
    exists i :: 0 <= i < |segments| && segments[i].url == url
  }

  /** The entries whose URL is not among those of `batch`, in order. */
  function Others(extras: seq<Segment>, batch: seq<Segment>): seq<Segment> {
    if extras == [] then []
    else (if HasUrl(batch, extras[0].url) then [] else [extras[0]]) + Others(extras[1..], batch)
  }

  /** The entries that do not become available at `time`, in order. */
  function NotAt(extras: seq<Segment>, now: int, time: int): seq<Segment> {
    if extras == [] then []
    else (if (if extras[0].start < now then now else extras[0].start) == time then [] else [extras[0]]) + NotAt(extras[1..], now, time)
  }

  lemma {:induction false} RemoveEntryAmongDistinct(extras: seq<Segment>, batch: seq<Segment>)
    requires DistinctUrls(extras) && batch != []
    ensures Others(RemoveEntry(extras, batch[0].url), batch[1..]) == Others(extras, batch)
    ensures DistinctUrls(RemoveEntry(extras, batch[0].url))
    ensures forall e :: e in RemoveEntry(extras, batch[0].url) ==> e in extras
  {
    if extras != [] {
      var e, url := extras[0], batch[0].url;
      assert HasUrl(batch, e.url) <==> e.url == url || HasUrl(batch[1..], e.url) by { HasUrlStep(batch, e.url); }
      if e.url == url {
        OthersIgnoreAbsent(extras[1..], batch);
      } else {
        RemoveEntryAmongDistinct(extras[1..], batch);
        var rest := RemoveEntry(extras[1..], url);
        assert ([e] + rest)[1..] == rest;
        forall i | 0 <= i < |rest| ensures rest[i].url != e.url {
          assert rest[i] in extras[1..];
        }
      }
    }
  }

  lemma HasUrlStep(batch: seq<Segment>, url: string)
    requires batch != []
    ensures HasUrl(batch, url) <==> batch[0].url == url || HasUrl(batch[1..], url)
  {
  }

  lemma {:induction false} OthersIgnoreAbsent(extras: seq<Segment>, batch: seq<Segment>)
    requires batch != [] && forall i :: 0 <= i < |extras| ==> extras[i].url != batch[0].url
    ensures Others(extras, batch[1..]) == Others(extras, batch)
  {
    if extras != [] {
      HasUrlStep(batch, extras[0].url);
      OthersIgnoreAbsent(extras[1..], batch);
    }
  }

  lemma {:induction false} RemoveEntriesAmongDistinct(extras: seq<Segment>, batch: seq<Segment>)
    requires DistinctUrls(extras)
    ensures RemoveEntries(extras, batch) == Others(extras, batch)
    decreases |batch|
  {
    if batch == [] {
      OthersOfNone(extras);
    } else {
      RemoveEntryAmongDistinct(extras, batch);
      RemoveEntriesAmongDistinct(RemoveEntry(extras, batch[0].url), batch[1..]);
    }
  }

  lemma {:induction false} OthersOfNone(extras: seq<Segment>)
    ensures Others(extras, []) == extras
  {
    if extras != [] {
      OthersOfNone(extras[1..]);
    }
  }

  lemma {:induction false} OthersAreNotAt(extras: seq<Segment>, batch: seq<Segment>, now: int, time: int)
    requires forall i :: 0 <= i < |extras| ==> (HasUrl(batch, extras[i].url) <==> Clamp(extras[i], now).start == time)
    ensures Others(extras, batch) == NotAt(extras, now, time)
  {
    if extras != [] {
      OthersAreNotAt(extras[1..], batch, now, time);
    }
  }

  lemma AvailableExtraIsInBatch(media: seq<Segment>, extras: seq<Segment>, now: int, i: nat)
    requires i < |extras| && Clamp(extras[i], now).start == Schedule(media, extras, now)[0].start
    ensures Clamp(extras[i], now) in Batch(media, extras, now)
  {
    hide Batch, Schedule, Class;
    var all, time := media + extras, Schedule(media, extras, now)[0].start;
    BatchIsEverythingEarliest(media, extras, now);
    assert all[|media| + i] == extras[i];
    assert ClampAll(all, now)[|media| + i] == Clamp(extras[i], now);
    ClassMember(StartOf, ClampAll(all, now), Some(time), Clamp(extras[i], now));
  }

  lemma BatchComesFromCandidates(media: seq<Segment>, extras: seq<Segment>, now: int)
    ensures |Batch(media, extras, now)| > 0 ==> media + extras != []
  {
  }

  lemma BatchSegmentIsCandidate(media: seq<Segment>, extras: seq<Segment>, now: int, k: nat) returns (j: nat)
    requires k < |Batch(media, extras, now)|
    ensures j < |media + extras| && Batch(media, extras, now)[k] == Clamp((media + extras)[j], now)
    ensures Batch(media, extras, now)[k].start == Schedule(media, extras, now)[0].start
  {
    hide Batch, Schedule, Class;
    var all, batch := media + extras, Batch(media, extras, now);
    BatchComesFromCandidates(media, extras, now);
    BatchIsEverythingEarliest(media, extras, now);
    ClassMember(StartOf, ClampAll(all, now), Some(Schedule(media, extras, now)[0].start), batch[k]);
    j :| 0 <= j < |ClampAll(all, now)| && ClampAll(all, now)[j] == batch[k];
  }

  lemma BatchHasExtraIff(media: seq<Segment>, extras: seq<Segment>, now: int, i: nat)
    requires DistinctUrls(extras) && i < |extras| && forall j :: 0 <= j < |media| ==> media[j].url != extras[i].url
    ensures HasUrl(Batch(media, extras, now), extras[i].url)
           == (Clamp(extras[i], now).start == Schedule(media, extras, now)[0].start)
  {
    hide Batch, Schedule;
    var batch := Batch(media, extras, now);
    if Clamp(extras[i], now).start == Schedule(media, extras, now)[0].start {
      AvailableExtraIsInBatch(media, extras, now, i);
      var k :| 0 <= k < |batch| && batch[k] == Clamp(extras[i], now);
      assert batch[k].url == extras[i].url;
    }
    if HasUrl(batch, extras[i].url) {
      var k :| 0 <= k < |batch| && batch[k].url == extras[i].url;
      var j := BatchSegmentIsCandidate(media, extras, now, k);
      assert (media + extras)[j].url == extras[i].url;
      assert j == |media| + i;
    }
  }

  /** With URLs of their own, the extra objects that leave the list are exactly those emitted: the
      ones available at the fetch time. */
  lemma RemainingExtrasAreTheLaterOnes(media: seq<Segment>, extras: seq<Segment>, now: int)
    requires DistinctUrls(extras) && media + extras != []
    requires forall i, j :: 0 <= i < |media| && 0 <= j < |extras| ==> media[i].url != extras[j].url
    ensures ExtrasAfter(media, extras, now) == NotAt(extras, now, Schedule(media, extras, now)[0].start)
  {
    hide Batch, Schedule;
    RemoveEntriesAmongDistinct(extras, Batch(media, extras, now));
    forall i | 0 <= i < |extras|
      ensures HasUrl(Batch(media, extras, now), extras[i].url)
           == (Clamp(extras[i], now).start == Schedule(media, extras, now)[0].start)
    {
      BatchHasExtraIff(media, extras, now, i);
    }
    OthersAreNotAt(extras, Batch(media, extras, now), now, Schedule(media, extras, now)[0].start);
  }

  /** One call: the media segments selected from the MPD at that moment, and the time. */
  datatype Call = Call(media: seq<Segment>, now: int)

  function EmittedOver(extras: seq<Segment>, calls: seq<Call>, url: string): nat
    decreases |calls|
  {
    if calls == [] then 0
    else CountUrl(Batch(calls[0].media, extras, calls[0].now), url)
           + EmittedOver(ExtrasAfter(calls[0].media, extras, calls[0].now), calls[1..], url)
  }

  function ExtrasOver(extras: seq<Segment>, calls: seq<Call>): seq<Segment>
    decreases |calls|
  {
    if calls == [] then extras
    else ExtrasOver(ExtrasAfter(calls[0].media, extras, calls[0].now), calls[1..])
  }

  /** Over any sequence of calls between two manifest updates, an extra object whose URL is its own
      is emitted at most once, and it is emitted exactly when it leaves the list. */
  lemma {:induction false} ExtrasAreEmittedOnce(extras: seq<Segment>, calls: seq<Call>, url: string)
    requires forall i :: 0 <= i < |calls| ==> CountUrl(calls[i].media, url) == 0
    ensures EmittedOver(extras, calls, url) + CountUrl(ExtrasOver(extras, calls), url) == CountUrl(extras, url)
    decreases |calls|
  {
    hide Batch, ExtrasAfter;
    if calls != [] {
      EmittedIsRemoved(calls[0].media, extras, calls[0].now, url);
      ExtrasAreEmittedOnce(ExtrasAfter(calls[0].media, extras, calls[0].now), calls[1..], url);
    }
  }

  /** An extra object that is due is emitted by the very next call. */
  lemma DueExtrasAreEmittedNext(media: seq<Segment>, extras: seq<Segment>, now: int, i: nat)
    requires i < |extras| && extras[i].start <= now
    ensures Schedule(media, extras, now)[0].start == now
    ensures Clamp(extras[i], now) in Batch(media, extras, now)
  {
    hide Batch, Schedule, Class;
    BatchIsEverythingEarliest(media, extras, now);
    assert (media + extras)[|media| + i] == extras[i];
    AvailableExtraIsInBatch(media, extras, now, i);
  }

  lemma {:induction false} ClampAllAppend(a: seq<Segment>, b: seq<Segment>, now: int)
    ensures ClampAll(a + b, now) == ClampAll(a, now) + ClampAll(b, now)
  {
  }

  /** How many of the segments with this URL become available at `time`. */
  function DueAt(segments: seq<Segment>, now: int, time: int, url: string): nat {
    CountUrl(Class(StartOf, ClampAll(segments, now), Some(time)), url)
  }

  /** On all inputs: a call takes as many entries of a URL off the list as it emits from the list,
      exactly when no media segment of that batch has the URL, or every entry with it is due. */
  lemma {:induction false} ExtrasLeaveWhenEmittedIff(media: seq<Segment>, extras: seq<Segment>, now: int, url: string)
    requires media + extras != []
    ensures var time := Schedule(media, extras, now)[0].start;
            (CountUrl(extras, url) - CountUrl(ExtrasAfter(media, extras, now), url) == DueAt(extras, now, time, url))
            == (DueAt(media, now, time, url) == 0 || DueAt(extras, now, time, url) == CountUrl(extras, url))
  {
    hide Batch, Schedule, Class, CountUrl, RemoveEntries;
    var time := Schedule(media, extras, now)[0].start;
    BatchIsEverythingEarliest(media, extras, now);
    ClampAllAppend(media, extras, now);
    ClassAppend(StartOf, ClampAll(media, now), ClampAll(extras, now), Some(time));
    CountUrlAppend(Class(StartOf, ClampAll(media, now), Some(time)), Class(StartOf, ClampAll(extras, now), Some(time)), url);
    RemovalCounts(extras, Batch(media, extras, now), url);
    CountUrlOfClass(ClampAll(extras, now), Some(time), url);
    CountUrlOfClamped(extras, now, url);
  }

  /** The condition can fail: a media segment takes an extra object with its URL off the list unfetched. */
  lemma SharedUrlDropsAnExtra(now: int, url: string)
    ensures var media, extras := [Segment(now, url, None)], [Segment(now + 1, url, Some(now + 2))];
            && Batch(media, extras, now) == media
            && ExtrasAfter(media, extras, now) == []
  {
    var media, extras := [Segment(now, url, None)], [Segment(now + 1, url, Some(now + 2))];
    var all := media + extras;
    BatchIsEverythingEarliest(media, extras, now);
    assert Clamp(all[0], now).start == now && Clamp(all[1], now).start == now + 1;
    assert ClampAll(all, now) == all;
    assert all[1..] == extras && extras[1..] == [];
    assert Class(StartOf, extras, Some(now)) == IfKey(StartOf, extras[0], Some(now)) + Class(StartOf, [], Some(now));
    assert Class(StartOf, all, Some(now)) == media;
    assert media[1..] == [];
    assert RemoveEntries(extras, media) == RemoveEntries(RemoveEntry(extras, url), []);
  }

  // ----- The object -----

  /** What is kept of the manifest object the handler was made from. */
  datatype ManifestObject = ManifestObject(fetchedUrl: string, receivedTime: int, expiryTime: Option<int>)

  /** What the library reads out of an MPD. */
  datatype Mpd = Mpd(initialisation: seq<Segment>, minimumUpdatePeriod: Option<int>, availabilityEnd: Option<int>)

  function RefreshTime(manifest: ManifestObject, period: int): int {
    var t := manifest.receivedTime + period;
    if manifest.expiryTime.Some? && t < manifest.expiryTime.value then manifest.expiryTime.value else t
  }

  /** The refresh is due at the later of the expiry and the end of the update period. */
  lemma RefreshTimeIsTheLater(manifest: ManifestObject, period: int)
    ensures var t, updateTime := RefreshTime(manifest, period), manifest.receivedTime + period;
            && updateTime <= t && (manifest.expiryTime.Some? ==> manifest.expiryTime.value <= t)
            && (t == updateTime || (manifest.expiryTime.Some? && t == manifest.expiryTime.value))
  {
  }

  function RefreshOf(manifest: ManifestObject, mpd: Mpd, pull: bool): seq<Segment> {
    if pull && mpd.minimumUpdatePeriod.Some?
    then [Segment(RefreshTime(manifest, mpd.minimumUpdatePeriod.value), manifest.fetchedUrl, mpd.availabilityEnd)]
    else []
  }

  function ExtrasOf(manifest: ManifestObject, mpd: Mpd, pull: bool): seq<Segment> {
    mpd.initialisation + RefreshOf(manifest, mpd, pull)
  }

  /** The refresh time counts from the reception of the first manifest, also after an update: once
      it has passed, every further update is followed at once by another refresh. */
  lemma RefreshIsDueAfterEveryUpdate(manifest: ManifestObject, mpd: Mpd, media: seq<Segment>, now: int)
    requires mpd.minimumUpdatePeriod.Some? && RefreshTime(manifest, mpd.minimumUpdatePeriod.value) <= now
    ensures HasUrl(Batch(media, ExtrasOf(manifest, mpd, true), now), manifest.fetchedUrl)
  {
    var extras := ExtrasOf(manifest, mpd, true);
    var i := |extras| - 1;
    DueExtrasAreEmittedNext(media, extras, now, i);
    var batch := Batch(media, extras, now);
    var k :| 0 <= k < |batch| && batch[k] == Clamp(extras[i], now);
    assert batch[k].url == manifest.fetchedUrl;
  }

  /** While some media segment is available, a refresh with a URL of its own is emitted exactly when
      its time has come. */
  lemma {:induction false} RefreshIsEmittedIffDue(manifest: ManifestObject, mpd: Mpd, media: seq<Segment>, now: int)
    requires mpd.minimumUpdatePeriod.Some? && DistinctUrls(ExtrasOf(manifest, mpd, true))
    requires forall j :: 0 <= j < |media| ==> media[j].url != manifest.fetchedUrl
    requires exists j :: 0 <= j < |media| && media[j].start <= now
    ensures HasUrl(Batch(media, ExtrasOf(manifest, mpd, true), now), manifest.fetchedUrl)
         == (RefreshTime(manifest, mpd.minimumUpdatePeriod.value) <= now)
  {
    hide Batch, Schedule, HasUrl;
    var extras := ExtrasOf(manifest, mpd, true);
    BatchHasExtraIff(media, extras, now, |extras| - 1);
    ScheduleHeadIsEarliest(media, extras, now);
    var j :| 0 <= j < |media| && media[j].start <= now;
    assert (media + extras)[j] == media[j];
  }

  class DASHManifestHandler {
    const manifest: ManifestObject
    const pullDistribution: bool
    var mpd: Mpd
    var extraPullObjects: seq<Segment>

    constructor (manifest: ManifestObject, mpd: Mpd, pullDistribution: bool)
      ensures this.manifest == manifest && this.pullDistribution == pullDistribution && this.mpd == mpd
      ensures extraPullObjects == ExtrasOf(manifest, mpd, pullDistribution)
      ensures mpd.initialisation <= extraPullObjects
    {
      this.manifest, this.pullDistribution, this.mpd := manifest, pullDistribution, mpd;
      extraPullObjects := mpd.initialisation;
      new;
      AddMpdRefresh();
    }

    method AddMpdRefresh()
      modifies this`extraPullObjects
      ensures extraPullObjects == old(extraPullObjects) + RefreshOf(manifest, mpd, pullDistribution)
      ensures !pullDistribution || mpd.minimumUpdatePeriod.None? ==> extraPullObjects == old(extraPullObjects)
      ensures pullDistribution && mpd.minimumUpdatePeriod.Some? ==>
                exists start :: extraPullObjects == old(extraPullObjects) + [Segment(start, manifest.fetchedUrl, mpd.availabilityEnd)]
    {
      if pullDistribution && mpd.minimumUpdatePeriod.Some? {
        var minUpdateTime := manifest.receivedTime + mpd.minimumUpdatePeriod.value;
        var timeToUpdate := if manifest.expiryTime.Some? && minUpdateTime < manifest.expiryTime.value
                            then manifest.expiryTime.value else minUpdateTime;
        extraPullObjects := extraPullObjects + [Segment(timeToUpdate, manifest.fetchedUrl, mpd.availabilityEnd)];
      }
    }

    method Update(newMpd: Mpd)
      modifies this
      ensures mpd == newMpd && extraPullObjects == ExtrasOf(manifest, newMpd, pullDistribution)
      ensures newMpd.initialisation <= extraPullObjects
    {
      mpd := newMpd;
      extraPullObjects := mpd.initialisation;
      AddMpdRefresh();
    }

    method RemoveExtraPullObjectsEntry(segment: Segment)
      modifies this`extraPullObjects
      ensures extraPullObjects == RemoveEntry(old(extraPullObjects), segment.url)
    {
      var i := 0;
      while i < |extraPullObjects| && extraPullObjects[i].url != segment.url
        invariant 0 <= i <= |extraPullObjects|
        invariant forall j :: 0 <= j < i ==> extraPullObjects[j].url != segment.url
      {
        i := i + 1;
      }
      RemoveEntryAt(extraPullObjects, segment.url, i);
      if i < |extraPullObjects| {
        extraPullObjects := extraPullObjects[..i] + extraPullObjects[i + 1..];
      }
    }

    /** The loop that empties the earliest batch out of the schedule and the extra list. */
    method TakeBatch(schedule: seq<Segment>, fetchTime: int, ids: nat -> string,
                     ingestBase: Option<string>, distributionBase: Option<string>)
      returns (items: seq<IngestItem>)
      modifies this`extraPullObjects
      ensures extraPullObjects == RemoveEntries(old(extraPullObjects), Leaders(schedule, fetchTime))
      ensures |items| == |Leaders(schedule, fetchTime)|
      ensures forall k :: 0 <= k < |items| ==>
                items[k] == ItemFor(Leaders(schedule, fetchTime)[k], ids(k), ingestBase, distributionBase)
    {
      hide ItemFor, RemoveEntry;
      ghost var batch := Leaders(schedule, fetchTime);
      items := [];
      var k := 0;
      while k < |schedule| && schedule[k].start == fetchTime
        invariant 0 <= k <= |schedule| && |items| == k <= |batch|
        invariant Leaders(schedule[k..], fetchTime) == batch[k..]
        invariant RemoveEntries(extraPullObjects, batch[k..]) == RemoveEntries(old(extraPullObjects), batch)
        invariant forall j :: 0 <= j < k ==> items[j] == ItemFor(batch[j], ids(j), ingestBase, distributionBase)
      {
        var segment := schedule[k];
        assert schedule[k..][1..] == schedule[k + 1..];
        assert batch[k..] == [segment] + Leaders(schedule[k + 1..], fetchTime);
        assert batch[k..][1..] == batch[k + 1..];
        RemoveExtraPullObjectsEntry(segment);
        items := items + [ItemFor(segment, ids(k), ingestBase, distributionBase)];
        k := k + 1;
      }
      assert Leaders(schedule[k..], fetchTime) == [];
      assert batch[k..] == [];
    }

    method ClampStarts(candidates: seq<Segment>, now: int) returns (segments: seq<Segment>)
      ensures segments == ClampAll(candidates, now)
    {
      segments := candidates;
      for i := 0 to |segments|
        invariant |segments| == |candidates|
        invariant forall j :: 0 <= j < |candidates| ==> segments[j] == if j < i then Clamp(candidates[j], now) else candidates[j]
      {
        if segments[i].start < now {
          segments := segments[i := segments[i].(start := now)];
        }
      }
    }

    /** The next batch, for the media segments that the MPD offers now. Ids for the new objects come
        from `ids`; without any candidate the time is the epoch and the batch is empty. */
    method NextIngestItems(media: seq<Segment>, now: int, ids: nat -> string,
                           ingestBase: Option<string>, distributionBase: Option<string>)
      returns (fetchTime: int, items: seq<IngestItem>, ghost chosen: seq<nat>)
      modifies this`extraPullObjects
      ensures extraPullObjects == ExtrasAfter(media, old(extraPullObjects), now)
      ensures media + old(extraPullObjects) == [] ==> fetchTime == 0 && items == []
      ensures media + old(extraPullObjects) != [] ==> IsEarliest(fetchTime, media + old(extraPullObjects), now) && now <= fetchTime
      ensures |chosen| == |items| == |Batch(media, old(extraPullObjects), now)|
      ensures forall i, j :: 0 <= i < j < |chosen| ==> chosen[i] < chosen[j]
      ensures forall i: nat :: (i in chosen) ==
                (i < |media + old(extraPullObjects)| &&
                 fetchTime == if (media + old(extraPullObjects))[i].start < now then now else (media + old(extraPullObjects))[i].start)
      ensures forall k :: 0 <= k < |items| ==>
                && chosen[k] < |media + old(extraPullObjects)|
                && var segment := (media + old(extraPullObjects))[chosen[k]];
                   items[k] == IngestItem(ids(k), segment.url, "", ingestBase, distributionBase, segment.end)
    {
      hide Batch, Leaders, Schedule, StableSort;
      ghost var extras := extraPullObjects;
      var segments := ClampStarts(media + extraPullObjects, now);
      chosen := [];
      if segments == [] {
        NoCandidates(now);
        return 0, [], [];
      }
      segments := StableSort(StartOf, segments);
      ScheduleIsSorted(media, extras, now);
      BatchIsLeaders(media, extras, now);
      BatchIsEverythingEarliest(media, extras, now);
      fetchTime := segments[0].start;
      chosen := BatchIsChosen(media, extras, now);
      items := TakeBatch(segments, fetchTime, ids, ingestBase, distributionBase);
    }
  }

  lemma NoCandidates(now: int)
    ensures Batch([], [], now) == [] && forall extras :: RemoveEntries(extras, []) == extras
  {
  }

  lemma ScheduleIsSorted(media: seq<Segment>, extras: seq<Segment>, now: int)
    ensures Schedule(media, extras, now) == StableSort(StartOf, ClampAll(media + extras, now))
  {
  }

  lemma BatchIsLeaders(media: seq<Segment>, extras: seq<Segment>, now: int)
    requires Schedule(media, extras, now) != []
    ensures Batch(media, extras, now) == Leaders(Schedule(media, extras, now), Schedule(media, extras, now)[0].start)
  {
  }

  function ItemFor(segment: Segment, id: string, ingestBase: Option<string>, distributionBase: Option<string>): IngestItem {
    IngestItem(id, segment.url, "", ingestBase, distributionBase, segment.end)
  }

  lemma {:induction false} RemoveEntryAt(extras: seq<Segment>, url: string, i: nat)
    requires i <= |extras| && forall j :: 0 <= j < i ==> extras[j].url != url
    requires i < |extras| ==> extras[i].url == url
    ensures RemoveEntry(extras, url) == if i < |extras| then extras[..i] + extras[i + 1..] else extras
  {
    if i == 0 {
    } else {
      RemoveEntryAt(extras[1..], url, i - 1);
      if i < |extras| {
        assert extras[..i] + extras[i + 1..] == [extras[0]] + (extras[1..][..i - 1] + extras[1..][i..]);
      }
    }
  }
}
