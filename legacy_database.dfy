/**
  The older result database of `src/types.rs`: the same map from archive
  path to record, without file lists, whose tally also counts every failed
  record under `previously_failed`.
 */
module LegacyDatabase {
  import opened Results
  import opened Tally

  /** The four reasons of the older format (it has no `MissingExpectedFiles`). */
  datatype SkipReason = Empty | NoMatchingFiles | InvalidFormat | Failed

  datatype PboInfo = PboInfo(hash: string, failed: bool, skipReason: Option<SkipReason>)

  datatype ScanStats = ScanStats(
    total: nat,
    processed: nat,
    empty: nat,
    noMatchingFiles: nat,
    invalidFormat: nat,
    failed: nat,
    unchangedCount: nat,
    previouslyFailed: nat)

  /** `ScanStats::default()`. */
  function DefaultStats(): (s: ScanStats)
    ensures s.total == s.processed == s.empty == s.noMatchingFiles == s.invalidFormat == 0
    ensures s.failed == s.unchangedCount == s.previouslyFailed == 0
  {
    ScanStats(0, 0, 0, 0, 0, 0, 0, 0)
  }

  function Lookup(pbos: map<string, PboInfo>, path: string): (r: Option<PboInfo>)
    ensures r.Some? <==> path in pbos
    ensures r.Some? ==> r.value == pbos[path]
  {
    if path in pbos then Some(pbos[path]) else None
  }

  /** The reason counter a record adds one to, besides `previously_failed` for a failed one. */
  datatype Bucket = ProcessedBucket | EmptyBucket | NoMatchingBucket | InvalidBucket | FailedBucket

  const AllBuckets: seq<Bucket> := [ProcessedBucket, EmptyBucket, NoMatchingBucket, InvalidBucket, FailedBucket]

  function BucketOf(info: PboInfo): Bucket {
    if info.failed then
      match info.skipReason
      case Some(Empty) => EmptyBucket
      case Some(NoMatchingFiles) => NoMatchingBucket
      case Some(InvalidFormat) => InvalidBucket
      case Some(Failed) => FailedBucket
      case None => FailedBucket
    else ProcessedBucket
  }

  function Buckets(pbos: map<string, PboInfo>): (bm: map<string, Bucket>)
    ensures bm.Keys == pbos.Keys
  {
    map k | k in pbos :: BucketOf(pbos[k])
  }

  function FailedFlags(pbos: map<string, PboInfo>): (fm: map<string, bool>)
    ensures fm.Keys == pbos.Keys
  {
    map k | k in pbos :: pbos[k].failed
  }

  /** The counters after tallying the records of the keys `ks`. */
  function Tallied(pbos: map<string, PboInfo>, ks: set<string>): ScanStats {
    var bm := Buckets(pbos);
    ScanStats(
      total := |pbos|,
      processed := Count(bm, ks, ProcessedBucket),
      empty := Count(bm, ks, EmptyBucket),
      noMatchingFiles := Count(bm, ks, NoMatchingBucket),
      invalidFormat := Count(bm, ks, InvalidBucket),
      failed := Count(bm, ks, FailedBucket),
      unchangedCount := 0,
      previouslyFailed := Count(FailedFlags(pbos), ks, true))
  }

  /** What `get_stats` returns. */
  function StatsOf(pbos: map<string, PboInfo>): (s: ScanStats)
    ensures s.total == |pbos| && s.unchangedCount == 0
  {
    Tallied(pbos, pbos.Keys)
  }

  /** A failed record adds one to its reason counter and to `previously_failed`; any other to `processed`. */
  function Bump(s: ScanStats, info: PboInfo): ScanStats {
    var s' := if info.failed then s.(previouslyFailed := s.previouslyFailed + 1) else s;
    match BucketOf(info)
    case ProcessedBucket => s'.(processed := s'.processed + 1)
    case EmptyBucket => s'.(empty := s'.empty + 1)
    case NoMatchingBucket => s'.(noMatchingFiles := s'.noMatchingFiles + 1)
    case InvalidBucket => s'.(invalidFormat := s'.invalidFormat + 1)
    case FailedBucket => s'.(failed := s'.failed + 1)
  }

  lemma TalliedNone(pbos: map<string, PboInfo>)
    ensures Tallied(pbos, {}) == DefaultStats().(total := |pbos|)
  {
    forall b: Bucket ensures Count(Buckets(pbos), {}, b) == 0 {
      CountNone(Buckets(pbos), b);
    }
    CountNone(FailedFlags(pbos), true);
  }

  lemma TalliedAdd(pbos: map<string, PboInfo>, ks: set<string>, k: string)
    requires k in pbos && k !in ks
    ensures Tallied(pbos, ks + {k}) == Bump(Tallied(pbos, ks), pbos[k])
  {
    var bm := Buckets(pbos);
    forall b: Bucket ensures Count(bm, ks + {k}, b) == Count(bm, ks, b) + (if bm[k] == b then 1 else 0) {
      CountAdd(bm, ks, k, b);
    }
    CountAdd(FailedFlags(pbos), ks, k, true);
  }

  /** Records classified as processed are exactly the records that did not fail. */
  lemma ProcessedAreNotFailed(pbos: map<string, PboInfo>)
    ensures Count(Buckets(pbos), pbos.Keys, ProcessedBucket) == Count(FailedFlags(pbos), pbos.Keys, false)
  {
    var bm, fm := Buckets(pbos), FailedFlags(pbos);
    forall k | k in pbos ensures bm[k] == ProcessedBucket <==> fm[k] == false {
      assert bm[k] == BucketOf(pbos[k]) && fm[k] == pbos[k].failed;
    }
    CountMatch(bm, ProcessedBucket, fm, false, pbos.Keys);
  }

  /**
    The counters partition the database twice: `processed` and
    `previously_failed` add up to `total`, and the four reason counters add up
    to `previously_failed`.
   */
  lemma StatsPartition(pbos: map<string, PboInfo>)
    ensures StatsOf(pbos).processed + StatsOf(pbos).previouslyFailed == StatsOf(pbos).total
    ensures StatsOf(pbos).empty + StatsOf(pbos).noMatchingFiles + StatsOf(pbos).invalidFormat + StatsOf(pbos).failed
      == StatsOf(pbos).previouslyFailed
  {
    BucketPartition(pbos);
    FlagPartition(pbos);
    ProcessedAreNotFailed(pbos);
  }

  /** Every record is in exactly one of the five buckets. */
  lemma BucketPartition(pbos: map<string, PboInfo>)
    ensures var bm, ks := Buckets(pbos), pbos.Keys;
      Count(bm, ks, ProcessedBucket) + Count(bm, ks, EmptyBucket) + Count(bm, ks, NoMatchingBucket)
      + Count(bm, ks, InvalidBucket) + Count(bm, ks, FailedBucket) == |pbos|
  {
    var bm, ks := Buckets(pbos), pbos.Keys;
    assert Distinct(AllBuckets);
    CountsPartition(bm, ks, AllBuckets);
    var a := AllBuckets;
    assert SumCounts(bm, ks, a[4..]) == Count(bm, ks, FailedBucket) + SumCounts(bm, ks, a[5..]);
    assert SumCounts(bm, ks, a[3..]) == Count(bm, ks, InvalidBucket) + SumCounts(bm, ks, a[4..]);
    assert SumCounts(bm, ks, a[2..]) == Count(bm, ks, NoMatchingBucket) + SumCounts(bm, ks, a[3..]);
    assert SumCounts(bm, ks, a[1..]) == Count(bm, ks, EmptyBucket) + SumCounts(bm, ks, a[2..]);
  }

  /** Every record either failed or did not. */
  lemma FlagPartition(pbos: map<string, PboInfo>)
    ensures Count(FailedFlags(pbos), pbos.Keys, false) + Count(FailedFlags(pbos), pbos.Keys, true) == |pbos|
  {
    var fm, ks := FailedFlags(pbos), pbos.Keys;
    var flags := [false, true];
    assert Distinct(flags);
    CountsPartition(fm, ks, flags);
    assert SumCounts(fm, ks, flags[1..]) == Count(fm, ks, true) + SumCounts(fm, ks, flags[2..]);
  }

  /** The body of the `get_stats` loop. */
  method TallyRecord(stats: ScanStats, info: PboInfo) returns (next: ScanStats)
    ensures next == Bump(stats, info)
    ensures next.processed + next.previouslyFailed == stats.processed + stats.previouslyFailed + 1
  {
    next := stats;
    if info.failed {
      match info.skipReason {
        case Some(Empty) => next := next.(empty := next.empty + 1);
        case Some(NoMatchingFiles) => next := next.(noMatchingFiles := next.noMatchingFiles + 1);
        case Some(InvalidFormat) => next := next.(invalidFormat := next.invalidFormat + 1);
        case Some(Failed) => next := next.(failed := next.failed + 1);
        case None => next := next.(failed := next.failed + 1);
      }
      next := next.(previouslyFailed := next.previouslyFailed + 1);
    } else {
      next := next.(processed := next.processed + 1);
    }
  }

  /** The older `ScanDatabase`. */
  class ScanDatabase {
    var pbos: map<string, PboInfo>

    constructor ()
      ensures pbos == map[]
    {
      pbos := map[];
    }

    /** `get_pbo_info`. */
    function GetPboInfo(path: string): (r: Option<PboInfo>)
      reads this
      ensures r.Some? <==> path in pbos
      ensures r.Some? ==> r.value == pbos[path]
    {
      Lookup(pbos, path)
    }

    /** `update_pbo`: the given fingerprint and flag, no reason, under the path's key. */
    method UpdatePbo(path: string, hash: string, failed: bool)
      modifies this
      ensures pbos == old(pbos)[path := PboInfo(hash, failed, None)]
      ensures GetPboInfo(path) == Some(PboInfo(hash, failed, None))
      ensures forall p :: p != path ==> GetPboInfo(p) == old(GetPboInfo(p))
    {
      pbos := pbos[path := PboInfo(hash, failed, None)];
    }

    /** `update_pbo_with_reason`: the given fingerprint, flag and reason. */
    method UpdatePboWithReason(path: string, hash: string, failed: bool, reason: SkipReason)
      modifies this
      ensures pbos == old(pbos)[path := PboInfo(hash, failed, Some(reason))]
      ensures GetPboInfo(path) == Some(PboInfo(hash, failed, Some(reason)))
      ensures forall p :: p != path ==> GetPboInfo(p) == old(GetPboInfo(p))
    {
      pbos := pbos[path := PboInfo(hash, failed, Some(reason))];
    }

    /** `get_stats`. */
    method GetStats() returns (stats: ScanStats)
      ensures stats == StatsOf(pbos)
      ensures stats.processed + stats.previouslyFailed == stats.total
      ensures stats.empty + stats.noMatchingFiles + stats.invalidFormat + stats.failed == stats.previouslyFailed
    {
      stats := DefaultStats().(total := |pbos|);
      var remaining := pbos.Keys;
      ghost var done: set<string> := {};
      TalliedNone(pbos);
      while remaining != {}
        invariant remaining + done == pbos.Keys && remaining !! done
        invariant stats == Tallied(pbos, done)
        decreases |remaining|
      {
        var k :| k in remaining;
        var info := pbos[k];
        stats := TallyRecord(stats, info);
        TalliedAdd(pbos, done, k);
        remaining := remaining - {k};
        done := done + {k};
      }
      StatsPartition(pbos);
    }
  }
}
