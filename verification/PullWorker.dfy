/** The scheduled pull worker: it spreads each batch of the schedule over a pool of ingesters that
    grows as needed. */
module PullWorker {
  import opened Basics
  import opened StableOrder
  import opened PullObjectIngester
  import opened DashManifestHandler

  /** Four seconds, in nanoseconds. */
  const DEFAULT_DEADLINE: int := 4_000_000_000

  function Stamp(item: IngestItem, now: int): IngestItem {
    item.(deadline := Some(now + DEFAULT_DEADLINE))
  }

  function StampAll(items: seq<IngestItem>, clock: nat -> int): (r: seq<IngestItem>)
    ensures |r| == |items|
    ensures forall k :: 0 <= k < |r| ==> r[k] == Stamp(items[k], clock(k))
  {
    seq(|items|, k requires 0 <= k < |items| => Stamp(items[k], clock(k)))
  }

  /** A handed-out item keeps its URL, and there are four seconds to download it. */
  lemma StampedItemCanBeDownloaded(item: IngestItem, handedOut: int, now: int)
    ensures Stamp(item, handedOut) == item.(deadline := Some(handedOut + 4_000_000_000))
    ensures handedOut <= now <= handedOut + 4_000_000_000 - 1_000_000 ==> 0 < Timeout(Stamp(item, handedOut).deadline, now) <= 4_000
  {
    TimeoutRespectsDeadline(handedOut + 4_000_000_000, now);
  }

  function PoolSize(pool: seq<IngesterState>, items: seq<IngestItem>): nat {
    if |pool| < |items| then |items| else |pool|
  }

  /** The ingester at `k`, a new one past the end of the pool. */
  function IngesterAt(pool: seq<IngesterState>, k: nat): IngesterState {
    if k < |pool| then pool[k] else NewIngester([])
  }

  /** One round: item `k` goes to ingester `k`. */
  function HandedOut(pool: seq<IngesterState>, items: seq<IngestItem>): (r: seq<IngesterState>)
    ensures |r| == PoolSize(pool, items)
    ensures forall k :: 0 <= k < |r| ==>
              r[k] == if k < |items| then FetchItem(IngesterAt(pool, k), items[k]) else pool[k]
  {
    seq(PoolSize(pool, items), k requires 0 <= k < PoolSize(pool, items) =>
      if k < |items| then FetchItem(IngesterAt(pool, k), items[k]) else pool[k])
  }

  /** Ingester `k`, which may be new, has one more item waiting. */
  ghost predicate HasGained(before: seq<IngesterState>, after: seq<IngesterState>, k: nat, item: IngestItem) {
    k < |after| && multiset(after[k].pending) == (if k < |before| then multiset(before[k].pending) else multiset{}) + multiset{item}
  }

  /** After a round, item `k` waits at ingester `k`, and there are four seconds from the hand-out to
      download it. */
  lemma ItemsArrive(pool: seq<IngesterState>, items: seq<IngestItem>, clock: nat -> int)
    ensures forall k :: 0 <= k < |items| ==>
              HasGained(pool, HandedOut(pool, StampAll(items, clock)), k, items[k].(deadline := Some(clock(k) + 4_000_000_000)))
  {
    NewIngesterIsEmpty();
    hide NewIngester, Insert;
    forall k | 0 <= k < |items|
      ensures HasGained(pool, HandedOut(pool, StampAll(items, clock)), k, items[k].(deadline := Some(clock(k) + 4_000_000_000)))
    {
      InsertElements(DeadlineOf, IngesterAt(pool, k).pending, Stamp(items[k], clock(k)));
    }
  }

  // ----- Nothing is lost between the rounds -----

  function AcceptedBy(pool: seq<IngesterState>, job: IngestItem): nat {
    if pool == [] then 0 else Count(pool[0].accepted, job) + AcceptedBy(pool[1..], job)
  }

  /** How often a job is anywhere in the pool: waiting, being downloaded, stored or failed. */
  function HeldBy(pool: seq<IngesterState>, job: IngestItem): nat {
    if pool == [] then 0
    else Count(pool[0].pending, job) + Count(Current(pool[0]), job) + Count(pool[0].stored, job) + Count(pool[0].failed, job)
           + HeldBy(pool[1..], job)
  }

  lemma {:induction false} RoundAcceptsTheBatch(pool: seq<IngesterState>, items: seq<IngestItem>, job: IngestItem)
    ensures AcceptedBy(HandedOut(pool, items), job) == AcceptedBy(pool, job) + Count(items, job)
    decreases |items|
  {
    hide IsJob, Insert, StableSort;
    if items == [] {
      assert HandedOut(pool, items) == pool;
    } else {
      var first, rest := IngesterAt(pool, 0), if pool == [] then [] else pool[1..];
      RoundAcceptsTheBatch(rest, items[1..], job);
      assert HandedOut(pool, items)[1..] == HandedOut(rest, items[1..]);
      CountSnoc(first.accepted, items[0], job);
      CountNone(job);
      NewIngesterIsEmpty();
    }
  }

  lemma NewIngesterIsEmpty()
    ensures NewIngester([]).accepted == [] && NewIngester([]).pending == []
  {
  }

  /** Between rounds, any ingester may start its next download or end the one under way. */
  datatype PoolStep = Round(items: seq<IngestItem>) | Download(k: nat, step: IngesterStep)

  function PoolNext(pool: seq<IngesterState>, step: PoolStep): Option<seq<IngesterState>> {
    match step
    case Round(items) => Some(HandedOut(pool, items))
    case Download(k, step) =>
      if k < |pool| && (step.BeginStep? || step.FinishStep?) && IngesterNext(pool[k], step).Some?
      then Some(pool[k := IngesterNext(pool[k], step).value]) else None
  }

  predicate PoolRun(pool: seq<IngesterState>, steps: seq<PoolStep>)
    decreases |steps|
  {
    steps == [] || (PoolNext(pool, steps[0]).Some? && PoolRun(PoolNext(pool, steps[0]).value, steps[1..]))
  }

  function PoolAfter(pool: seq<IngesterState>, steps: seq<PoolStep>): seq<IngesterState>
    requires PoolRun(pool, steps)
    decreases |steps|
  {
    if steps == [] then pool else PoolAfter(PoolNext(pool, steps[0]).value, steps[1..])
  }

  function Batched(step: PoolStep): seq<IngestItem> {
    if step.Round? then step.items else []
  }

  /** How often a job was in a batch. */
  function Scheduled(steps: seq<PoolStep>, job: IngestItem): nat {
    if steps == [] then 0 else Count(Batched(steps[0]), job) + Scheduled(steps[1..], job)
  }

  ghost predicate PoolInv(pool: seq<IngesterState>) {
    forall k :: 0 <= k < |pool| ==> IngesterInv(pool[k])
  }

  lemma PoolStepKeepsInv(pool: seq<IngesterState>, step: PoolStep)
    requires PoolInv(pool) && PoolNext(pool, step).Some?
    ensures PoolInv(PoolNext(pool, step).value)
  {
    hide IngesterInv, IngesterNext, NewIngester, FetchItem;
    if step.Round? {
      InitialIngesterInv([]);
      forall k | 0 <= k < |step.items| ensures IngesterInv(FetchItem(IngesterAt(pool, k), step.items[k])) {
        FetchItemKeepsInv(IngesterAt(pool, k), step.items[k]);
      }
    } else {
      IngesterStepKeepsInv(pool[step.k], step.step);
    }
  }

  lemma {:induction false} DownloadAcceptsNone(pool: seq<IngesterState>, k: nat, s: IngesterState, job: IngestItem)
    requires k < |pool| && s.accepted == pool[k].accepted
    ensures AcceptedBy(pool[k := s], job) == AcceptedBy(pool, job)
  {
    hide Count;
    if k == 0 {
      assert pool[k := s][1..] == pool[1..];
    } else {
      DownloadAcceptsNone(pool[1..], k - 1, s, job);
      assert pool[k := s][1..] == pool[1..][k - 1 := s];
    }
  }

  lemma {:induction false} AcceptedIsHeld(pool: seq<IngesterState>, job: IngestItem)
    requires PoolInv(pool)
    ensures AcceptedBy(pool, job) == HeldBy(pool, job)
  {
    hide Count;
    if pool != [] {
      AcceptedIsHeld(pool[1..], job);
      assert IngesterInv(pool[0]);
    }
  }

  lemma {:induction false} RunAccepts(pool: seq<IngesterState>, steps: seq<PoolStep>, job: IngestItem)
    requires PoolInv(pool) && PoolRun(pool, steps)
    ensures PoolInv(PoolAfter(pool, steps))
    ensures AcceptedBy(PoolAfter(pool, steps), job) == AcceptedBy(pool, job) + Scheduled(steps, job)
    decreases |steps|
  {
    hide PoolInv, Count, IsJob, HandedOut, Insert, Ordered;
    if steps != [] {
      PoolStepKeepsInv(pool, steps[0]);
      RunAccepts(PoolNext(pool, steps[0]).value, steps[1..], job);
      if steps[0].Round? {
        RoundAcceptsTheBatch(pool, steps[0].items, job);
      } else {
        DownloadAcceptsNone(pool, steps[0].k, IngesterNext(pool[steps[0].k], steps[0].step).value, job);
        CountNone(job);
      }
    }
  }

  /** Over any run of rounds and downloads, from any pool, everything that was in the pool or has
      been scheduled is there as often: waiting, being downloaded, stored or failed. */
  lemma {:induction false} EverythingScheduledIsHeld(pool: seq<IngesterState>, steps: seq<PoolStep>, job: IngestItem)
    requires PoolInv(pool) && PoolRun(pool, steps)
    ensures HeldBy(PoolAfter(pool, steps), job) == HeldBy(pool, job) + Scheduled(steps, job)
  {
    hide PoolNext, Count, PoolInv;
    AcceptedIsHeld(pool, job);
    RunAccepts(pool, steps, job);
    AcceptedIsHeld(PoolAfter(pool, steps), job);
  }

  /** A session's pool at the start: nothing, or the ingester of the items it was set up with. */
  lemma {:induction false} SessionHoldsItemsAndBatches(items: seq<IngestItem>, steps: seq<PoolStep>, job: IngestItem)
    requires PoolRun([NewIngester(items)], steps)
    ensures HeldBy(PoolAfter([NewIngester(items)], steps), job) == Count(items, job) + Scheduled(steps, job)
  {
    hide PoolRun, PoolAfter, Scheduled, StableSort, IngesterInv, Count;
    InitialIngesterInv(items);
    EverythingScheduledIsHeld([NewIngester(items)], steps, job);
    CountSort(items, job);
    CountNone(job);
    assert [NewIngester(items)][1..] == [];
  }

  // ----- The object -----

  class ObjectManifestController {
    var pullObjectIngesters: seq<PullObjectIngester>

    ghost predicate Valid()
      reads this, pullObjectIngesters
    {
      && NoDuplicates(pullObjectIngesters)
      && forall k :: 0 <= k < |pullObjectIngesters| ==> pullObjectIngesters[k].Valid()
    }

    ghost function Pool(): (r: seq<IngesterState>)
      reads this, pullObjectIngesters
      ensures |r| == |pullObjectIngesters|
      ensures forall k :: 0 <= k < |r| ==> r[k] == pullObjectIngesters[k].State()
    {
      seq(|pullObjectIngesters|, k requires 0 <= k < |pullObjectIngesters| reads this, pullObjectIngesters =>
        pullObjectIngesters[k].State())
    }

    constructor ()
      ensures Valid() && Pool() == []
    {
      pullObjectIngesters := [];
    }

    method GrowPool(size: nat)
      requires Valid()
      modifies this`pullObjectIngesters
      ensures Valid() && old(pullObjectIngesters) <= pullObjectIngesters
      ensures |pullObjectIngesters| == if |old(pullObjectIngesters)| < size then size else |old(pullObjectIngesters)|
      ensures forall k :: |old(pullObjectIngesters)| <= k < |pullObjectIngesters| ==>
                fresh(pullObjectIngesters[k]) && pullObjectIngesters[k].State() == NewIngester([])
    {
      hide IngesterInv, NewIngester;
      while |pullObjectIngesters| < size
        invariant Valid() && old(pullObjectIngesters) <= pullObjectIngesters
        invariant |pullObjectIngesters| <= size || pullObjectIngesters == old(pullObjectIngesters)
        invariant forall k :: |old(pullObjectIngesters)| <= k < |pullObjectIngesters| ==>
                    fresh(pullObjectIngesters[k]) && pullObjectIngesters[k].State() == NewIngester([])
      {
        var ingester := new PullObjectIngester([]);
        pullObjectIngesters := pullObjectIngesters + [ingester];
      }
    }

    /** The loop over the pool: item `k`, with a deadline counted from the clock, to ingester `k`. */
    method HandOut(items: seq<IngestItem>, clock: nat -> int)
      requires Valid() && |items| <= |pullObjectIngesters|
      modifies pullObjectIngesters
      ensures Valid() && Pool() == HandedOut(old(Pool()), StampAll(items, clock))
    {
      hide IngesterInv, NewIngester, Insert;
      for k := 0 to |items|
        invariant Valid()
        invariant forall j :: 0 <= j < |pullObjectIngesters| ==>
                    pullObjectIngesters[j].State() ==
                    if j < k then FetchItem(old(Pool())[j], Stamp(items[j], clock(j))) else old(Pool())[j]
      {
        pullObjectIngesters[k].Fetch(Stamp(items[k], clock(k)));
      }
    }

    /** Grow the pool to the size of the batch, then hand the batch out. */
    method SpreadBatch(items: seq<IngestItem>, clock: nat -> int)
      requires Valid()
      modifies this, pullObjectIngesters
      ensures Valid() && old(pullObjectIngesters) <= pullObjectIngesters && |items| <= |pullObjectIngesters|
      ensures forall k :: 0 <= k < |items| ==> HasGained(old(Pool()), Pool(), k, items[k].(deadline := Some(clock(k) + 4_000_000_000)))
      ensures Pool() == HandedOut(old(Pool()), StampAll(items, clock))
    {
      hide IngesterInv, FetchItem, NewIngester, HandedOut;
      ghost var before := Pool();
      GrowPool(|items|);
      GrownPoolHandsOutAlike(before, Pool(), StampAll(items, clock));
      HandOut(items, clock);
      ItemsArrive(before, items, clock);
    }

    /** One round of the worker loop on the media segments that the MPD offers now. It stops when
        the schedule is empty; otherwise every segment of the earliest batch goes to an ingester of
        its own, in order and with a deadline. */
    method WorkerRound(handler: DASHManifestHandler, media: seq<Segment>, now: int, ids: nat -> string,
                       ingestBase: Option<string>, distributionBase: Option<string>, clock: nat -> int)
      returns (stop: bool, fetchTime: int, items: seq<IngestItem>, ghost chosen: seq<nat>)
      requires Valid()
      modifies this, pullObjectIngesters, handler`extraPullObjects
      ensures Valid() && old(pullObjectIngesters) <= pullObjectIngesters && |items| <= |pullObjectIngesters|
      ensures forall k :: 0 <= k < |items| ==> HasGained(old(Pool()), Pool(), k, items[k].(deadline := Some(clock(k) + 4_000_000_000)))
      ensures stop == (media + old(handler.extraPullObjects) == [])
      ensures handler.extraPullObjects == ExtrasAfter(media, old(handler.extraPullObjects), now)
      ensures |items| == |chosen| && forall i, j :: 0 <= i < j < |chosen| ==> chosen[i] < chosen[j]
      ensures !stop ==> IsEarliest(fetchTime, media + old(handler.extraPullObjects), now)
      ensures forall i: nat :: (i in chosen) ==
                (i < |media + old(handler.extraPullObjects)| &&
                 var segment := (media + old(handler.extraPullObjects))[i];
                 fetchTime == if segment.start < now then now else segment.start)
      ensures forall k :: 0 <= k < |items| ==>
                && chosen[k] < |media + old(handler.extraPullObjects)|
                && var segment := (media + old(handler.extraPullObjects))[chosen[k]];
                   items[k] == IngestItem(ids(k), segment.url, "", ingestBase, distributionBase, segment.end)
      ensures Pool() == HandedOut(old(Pool()), StampAll(items, clock))
    {
      hide IngesterInv, HandedOut, HasGained, StampAll, IsEarliest, ExtrasAfter, Batch;
      ghost var extras := handler.extraPullObjects;
      fetchTime, items, chosen := handler.NextIngestItems(media, now, ids, ingestBase, distributionBase);
      BatchIsEmptyIff(media, extras, now);
      if items == [] {
        NothingHandedOut(Pool(), clock);
        stop := true;
        return;
      }
      SpreadBatch(items, clock);
      stop := false;
    }
  }

  lemma BatchIsEmptyIff(media: seq<Segment>, extras: seq<Segment>, now: int)
    ensures Batch(media, extras, now) == [] <==> media + extras == []
  {
  }

  lemma NothingHandedOut(pool: seq<IngesterState>, clock: nat -> int)
    ensures HandedOut(pool, StampAll([], clock)) == pool
  {
  }

  lemma GrownPoolHandsOutAlike(pool: seq<IngesterState>, grown: seq<IngesterState>, items: seq<IngestItem>)
    requires |grown| == PoolSize(pool, items)
    requires forall k :: 0 <= k < |grown| ==> grown[k] == IngesterAt(pool, k)
    ensures HandedOut(grown, items) == HandedOut(pool, items)
  {
  }
}
