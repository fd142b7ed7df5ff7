/**
  The per-archive result database (`database/operations.rs`): a map from an
  archive's path to what is known about it, with upserts, a lookup, the
  decision whether an archive must be processed again, and a one-pass tally.
 */
module Database {
  import opened Results
  import opened DatabaseTypes
  import opened Tally

  // ---------------------------------------------------------------------
  // Records written by the three update operations.

  /** The record `update_pbo` writes. */
  function PlainRecord(hash: string, failed: bool): (r: PboInfo)
    ensures r.hash == hash && r.failed == failed
    ensures r.skipReason.None? && r.expectedFiles.None? && r.extractedFiles.None?
  {
    PboInfo(hash, failed, None, None, None)
  }

  /** The record `update_pbo_with_reason` writes. */
  function ReasonRecord(hash: string, failed: bool, reason: SkipReason): (r: PboInfo)
    ensures r.hash == hash && r.failed == failed && r.skipReason == Some(reason)
    ensures r.expectedFiles.None? && r.extractedFiles.None?
  {
    PboInfo(hash, failed, Some(reason), None, None)
  }

  /** Every expected file occurs among the extracted ones (a diagnostic the source only logs). */
  predicate AllExpectedExtracted(expected: seq<string>, extracted: seq<string>) {
    forall i :: 0 <= i < |expected| ==> expected[i] in extracted
  }

  /**
    The record `update_pbo_with_files` writes: any extracted file makes the
    archive a success with no reason, whether or not every expected file came
    out; nothing extracted makes it a failure for missing expected files. Both
    lists are kept as given.
   */
  function FilesRecord(hash: string, expected: seq<string>, extracted: seq<string>): (r: PboInfo)
    ensures r.hash == hash
    ensures r.failed <==> extracted == []
    ensures r.skipReason.None? <==> extracted != []
    ensures r.skipReason.Some? ==> r.skipReason.value == MissingExpectedFiles
    ensures r.expectedFiles == Some(expected) && r.extractedFiles == Some(extracted)
    ensures !r.failed ==> |r.extractedFiles.value| > 0
  {
    var anyExtracted := extracted != [];
    var allExtracted := AllExpectedExtracted(expected, extracted);
    var reason := if anyExtracted then (if allExtracted then None else None) else Some(MissingExpectedFiles);
    PboInfo(hash, !anyExtracted, reason, Some(expected), Some(extracted))
  }

  /** Partial extraction is success: a missing expected file does not change the record when something was extracted. */
  lemma PartialExtractionIsSuccess(hash: string, expected: seq<string>, extracted: seq<string>, missing: nat)
    requires extracted != [] && missing < |expected| && expected[missing] !in extracted
    ensures !AllExpectedExtracted(expected, extracted)
    ensures !FilesRecord(hash, expected, extracted).failed
    ensures FilesRecord(hash, expected, extracted).skipReason == None
  {
  }

  // ---------------------------------------------------------------------
  // Lookup and the skip rule.

  /** `get_pbo_info` on the map itself. */
  function Lookup(pbos: map<string, PboInfo>, path: string): (r: Option<PboInfo>)
    ensures r.Some? <==> path in pbos
    ensures r.Some? ==> r.value == pbos[path]
  {
    if path in pbos then Some(pbos[path]) else None
  }

  /**
    Whether an archive with fingerprint `hash` must be processed: unless a
    record exists that did not fail and was made at the same fingerprint.
   */
  predicate NeedsProcessing(pbos: map<string, PboInfo>, path: string, hash: string) {
    match Lookup(pbos, path)
    case Some(info) => !(!info.failed && info.hash == hash)
    case None => true
  }

  /** An archive is skipped exactly when a non-failed record at the same fingerprint exists. */
  lemma SkipIff(pbos: map<string, PboInfo>, path: string, hash: string)
    ensures !NeedsProcessing(pbos, path, hash) <==> path in pbos && !pbos[path].failed && pbos[path].hash == hash
  {
  }

  /** A failed record is processed again whatever the fingerprint. */
  lemma FailedIsRetried(pbos: map<string, PboInfo>, path: string, hash: string)
    requires path in pbos && pbos[path].failed
    ensures NeedsProcessing(pbos, path, hash)
  {
  }

  /**
    After recording an extraction, the same archive at the same fingerprint is
    skipped next time exactly when something was extracted; at any other
    fingerprint it is processed again.
   */
  lemma SkipAfterFilesRecord(pbos: map<string, PboInfo>, path: string, hash: string, expected: seq<string>, extracted: seq<string>, next: string)
    ensures var after := pbos[path := FilesRecord(hash, expected, extracted)];
      !NeedsProcessing(after, path, next) <==> next == hash && extracted != []
  {
  }

  /** Writing one archive's record does not change the decision for any other archive. */
  lemma SkipUnaffectedByOtherKeys(pbos: map<string, PboInfo>, path: string, info: PboInfo, other: string, hash: string)
    requires other != path
    ensures NeedsProcessing(pbos[path := info], other, hash) == NeedsProcessing(pbos, other, hash)
  {
  }

  // ---------------------------------------------------------------------
  // The tally of `get_stats`.

  /** The counter of `ScanStats` a record adds one to. */
  datatype Bucket = ProcessedBucket | EmptyBucket | NoMatchingBucket | InvalidBucket | FailedBucket | MissingBucket

  const AllBuckets: seq<Bucket> := [ProcessedBucket, EmptyBucket, NoMatchingBucket, InvalidBucket, FailedBucket, MissingBucket]

  /** The classification of `get_stats`: a failed record by its reason (none counts as failed), any other as processed. */
  function BucketOf(info: PboInfo): Bucket {
    if info.failed then
      match info.skipReason
      case Some(Empty) => EmptyBucket
      case Some(NoMatchingFiles) => NoMatchingBucket
      case Some(InvalidFormat) => InvalidBucket
      case Some(Failed) => FailedBucket
      case Some(MissingExpectedFiles) => MissingBucket
      case None => FailedBucket
    else ProcessedBucket
  }

  function Buckets(pbos: map<string, PboInfo>): map<string, Bucket> {
    map k | k in pbos :: BucketOf(pbos[k])
  }

  /** The counters after tallying the records of the keys `ks`; `total` is the size of the database from the start. */
  function Tallied(pbos: map<string, PboInfo>, ks: set<string>): ScanStats {
    var bm := Buckets(pbos);
    ScanStats(
      total := |pbos|,
      processed := Count(bm, ks, ProcessedBucket),
      empty := Count(bm, ks, EmptyBucket),
      noMatchingFiles := Count(bm, ks, NoMatchingBucket),
      invalidFormat := Count(bm, ks, InvalidBucket),
      failed := Count(bm, ks, FailedBucket),
      unchangedCount := 0,
      previouslyFailed := 0,
      missingExpectedFiles := Count(bm, ks, MissingBucket))
  }

  /** What `get_stats` returns: every record tallied. */
  function StatsOf(pbos: map<string, PboInfo>): (s: ScanStats)
    ensures s.total == |pbos|
    ensures s.unchangedCount == 0 && s.previouslyFailed == 0
  {
    Tallied(pbos, pbos.Keys)
  }

  /** Adds one to the counter of bucket `b`. */
  function Bump(s: ScanStats, b: Bucket): ScanStats {
    match b
    case ProcessedBucket => s.(processed := s.processed + 1)
    case EmptyBucket => s.(empty := s.empty + 1)
    case NoMatchingBucket => s.(noMatchingFiles := s.noMatchingFiles + 1)
    case InvalidBucket => s.(invalidFormat := s.invalidFormat + 1)
    case FailedBucket => s.(failed := s.failed + 1)
    case MissingBucket => s.(missingExpectedFiles := s.missingExpectedFiles + 1)
  }

  function BucketSum(s: ScanStats): nat {
    s.processed + s.empty + s.noMatchingFiles + s.invalidFormat + s.failed + s.missingExpectedFiles
  }

  /** Tallying one more record adds one to exactly the counter of its bucket. */
  lemma TalliedAdd(pbos: map<string, PboInfo>, ks: set<string>, k: string)
    requires k in pbos && k !in ks
    ensures Tallied(pbos, ks + {k}) == Bump(Tallied(pbos, ks), BucketOf(pbos[k]))
  {
    var bm := Buckets(pbos);
    forall b: Bucket ensures Count(bm, ks + {k}, b) == Count(bm, ks, b) + (if bm[k] == b then 1 else 0) {
      CountAdd(bm, ks, k, b);
    }
  }

  lemma TalliedNone(pbos: map<string, PboInfo>)
    ensures Tallied(pbos, {}) == DefaultStats().(total := |pbos|)
  {
    forall b: Bucket ensures Count(Buckets(pbos), {}, b) == 0 {
      CountNone(Buckets(pbos), b);
    }
  }

  /** The six counters split the database: they add up to `total`. */
  lemma StatsPartition(pbos: map<string, PboInfo>)
    ensures BucketSum(StatsOf(pbos)) == StatsOf(pbos).total
  {
    var bm := Buckets(pbos);
    assert bm.Keys == pbos.Keys;
    assert Distinct(AllBuckets);
    CountsPartition(bm, pbos.Keys, AllBuckets);
    SumAllBuckets(bm, pbos.Keys);
  }

  lemma SumAllBuckets(bm: map<string, Bucket>, ks: set<string>)
    ensures SumCounts(bm, ks, AllBuckets) ==
      Count(bm, ks, ProcessedBucket) + Count(bm, ks, EmptyBucket) + Count(bm, ks, NoMatchingBucket)
      + Count(bm, ks, InvalidBucket) + Count(bm, ks, FailedBucket) + Count(bm, ks, MissingBucket)
  {
    var a := AllBuckets;
    assert SumCounts(bm, ks, a[5..]) == Count(bm, ks, MissingBucket) + SumCounts(bm, ks, a[6..]);
    assert SumCounts(bm, ks, a[4..]) == Count(bm, ks, FailedBucket) + SumCounts(bm, ks, a[5..]);
    assert SumCounts(bm, ks, a[3..]) == Count(bm, ks, InvalidBucket) + SumCounts(bm, ks, a[4..]);
    assert SumCounts(bm, ks, a[2..]) == Count(bm, ks, NoMatchingBucket) + SumCounts(bm, ks, a[3..]);
    assert SumCounts(bm, ks, a[1..]) == Count(bm, ks, EmptyBucket) + SumCounts(bm, ks, a[2..]);
  }

  /** Adding the record of a new archive adds one to `total` and one to the counter of its bucket. */
  lemma {:induction false} StatsInsert(pbos: map<string, PboInfo>, path: string, info: PboInfo)
    requires path !in pbos
    ensures StatsOf(pbos[path := info]) == Bump(StatsOf(pbos), BucketOf(info)).(total := |pbos| + 1)
  {
    var b := BucketOf(info);
    var s0, s1 := StatsOf(pbos), StatsOf(pbos[path := info]);
    forall c: Bucket ensures Count(Buckets(pbos[path := info]), (pbos[path := info]).Keys, c) == Count(Buckets(pbos), pbos.Keys, c) + (if b == c then 1 else 0) {
      CountsInsert(pbos, path, info, c);
    }
    assert |pbos[path := info]| == |pbos| + 1;
  }

  lemma CountsInsert(pbos: map<string, PboInfo>, path: string, info: PboInfo, c: Bucket)
    requires path !in pbos
    ensures Count(Buckets(pbos[path := info]), (pbos[path := info]).Keys, c) == Count(Buckets(pbos), pbos.Keys, c) + (if BucketOf(info) == c then 1 else 0)
  {
    var bm := Buckets(pbos);
    BucketsInsert(pbos, path, info);
    assert (pbos[path := info]).Keys == bm.Keys + {path};
    CountInsert(bm, path, BucketOf(info), c);
  }

  lemma BucketsInsert(pbos: map<string, PboInfo>, path: string, info: PboInfo)
    ensures Buckets(pbos[path := info]) == Buckets(pbos)[path := BucketOf(info)]
    ensures Buckets(pbos).Keys == pbos.Keys
  {
  }

  /** A record that failed without a reason is counted under `failed`. */
  lemma FailedWithoutReasonCountsAsFailed(pbos: map<string, PboInfo>, path: string, hash: string)
    requires path !in pbos
    ensures StatsOf(pbos[path := PlainRecord(hash, true)]).failed == StatsOf(pbos).failed + 1
  {
    StatsInsert(pbos, path, PlainRecord(hash, true));
  }

  /** The database made by writing the records of `rs` in order. */
  function Build(rs: seq<(string, PboInfo)>): map<string, PboInfo> {
    if rs == [] then map[] else Build(rs[..|rs| - 1])[rs[|rs| - 1].0 := rs[|rs| - 1].1]
  }

  /** The counters bumped once for each record of `rs`. */
  function BumpAll(s: ScanStats, rs: seq<(string, PboInfo)>): ScanStats {
    if rs == [] then s else Bump(BumpAll(s, rs[..|rs| - 1]), BucketOf(rs[|rs| - 1].1))
  }

  predicate DistinctKeys(rs: seq<(string, PboInfo)>) {
    forall i, j :: 0 <= i < j < |rs| ==> rs[i].0 != rs[j].0
  }

  lemma {:induction false} BuildKeys(rs: seq<(string, PboInfo)>)
    ensures forall k :: k in Build(rs) <==> exists i :: 0 <= i < |rs| && rs[i].0 == k
  {
    if rs != [] {
      BuildKeys(rs[..|rs| - 1]);
      forall k ensures k in Build(rs) <==> exists i :: 0 <= i < |rs| && rs[i].0 == k {
        if k in Build(rs[..|rs| - 1]) {
          var i :| 0 <= i < |rs| - 1 && rs[..|rs| - 1][i].0 == k;
          assert rs[i].0 == k;
        }
        if exists i :: 0 <= i < |rs| && rs[i].0 == k {
          var i :| 0 <= i < |rs| && rs[i].0 == k;
          if i < |rs| - 1 {
            assert rs[..|rs| - 1][i].0 == k;
          }
        }
      }
    }
  }

  lemma LastKeyIsNew(rs: seq<(string, PboInfo)>)
    requires rs != [] && DistinctKeys(rs)
    ensures rs[|rs| - 1].0 !in Build(rs[..|rs| - 1])
  {
    var init := rs[..|rs| - 1];
    BuildKeys(init);
  }

  lemma BumpTotal(s: ScanStats, b: Bucket, n: nat)
    ensures Bump(s.(total := n), b) == Bump(s, b).(total := n)
  {
  }

  /** Writing records under distinct paths one after another tallies each of them once. */
  lemma {:induction false} StatsOfBuild(rs: seq<(string, PboInfo)>)
    requires DistinctKeys(rs)
    ensures StatsOf(Build(rs)) == BumpAll(DefaultStats(), rs).(total := |rs|)
  {
    if rs == [] {
      TalliedNone(map[]);
    } else {
      var init := rs[..|rs| - 1];
      var last := rs[|rs| - 1];
      var before := BumpAll(DefaultStats(), init);
      assert DistinctKeys(init);
      StatsOfBuild(init);
      assert StatsOf(Build(init)) == before.(total := |init|);
      LastKeyIsNew(rs);
      StatsInsert(Build(init), last.0, last.1);
      assert StatsOf(Build(rs)) == Bump(before.(total := |init|), BucketOf(last.1)).(total := |init| + 1);
      BumpTotal(before, BucketOf(last.1), |init|);
    }
  }

  /**
    The seven archives of the operations tests, in the order they are
    written: one plain success, one failure for each of four reasons, one
    partial extraction and one extraction that produced nothing.
   */
  function SevenRecords(): seq<(string, PboInfo)> {
    [("/test/success.pbo", PlainRecord("hash1", false)),
     ("/test/empty.pbo", ReasonRecord("hash2", true, Empty)),
     ("/test/no_files.pbo", ReasonRecord("hash3", true, NoMatchingFiles)),
     ("/test/invalid.pbo", ReasonRecord("hash4", true, InvalidFormat)),
     ("/test/failed.pbo", ReasonRecord("hash5", true, Failed)),
     ("/test/missing.pbo", FilesRecord("hash6", ["file1.sqf", "file2.sqf"], ["file1.sqf"])),
     ("/test/no_extracted.pbo", FilesRecord("hash7", ["file1.sqf", "file2.sqf"], []))]
  }

  lemma SevenRecordsTally()
    ensures BumpAll(DefaultStats(), SevenRecords()) == DefaultStats().(processed := 2, empty := 1, noMatchingFiles := 1,
      invalidFormat := 1, failed := 1, missingExpectedFiles := 1)
  {
    var rs, d := SevenRecords(), DefaultStats();
    assert BucketOf(rs[5].1) == ProcessedBucket;
    assert BucketOf(rs[6].1) == MissingBucket;
    assert rs[..1][..0] == rs[..0];
    assert rs[..2][..1] == rs[..1];
    assert rs[..3][..2] == rs[..2];
    assert rs[..4][..3] == rs[..3];
    assert rs[..5][..4] == rs[..4];
    assert rs[..6][..5] == rs[..5];
    assert rs[..6] == rs[..|rs| - 1];
    assert BumpAll(d, rs[..1]) == d.(processed := 1);
    assert BumpAll(d, rs[..2]) == d.(processed := 1, empty := 1);
    assert BumpAll(d, rs[..3]) == d.(processed := 1, empty := 1, noMatchingFiles := 1);
    assert BumpAll(d, rs[..4]) == d.(processed := 1, empty := 1, noMatchingFiles := 1, invalidFormat := 1);
    assert BumpAll(d, rs[..5]) == d.(processed := 1, empty := 1, noMatchingFiles := 1, invalidFormat := 1, failed := 1);
    assert BumpAll(d, rs[..6]) == d.(processed := 2, empty := 1, noMatchingFiles := 1, invalidFormat := 1, failed := 1);
  }

  /**
    The expectations of the operations tests on that database: seven in
    total, two processed (the partial extraction among them), one under each
    failure reason, the empty extraction under missing expected files.
   */
  lemma StatsOfSevenRecords()
    ensures StatsOf(Build(SevenRecords())) == ScanStats(total := 7, processed := 2, empty := 1, noMatchingFiles := 1,
      invalidFormat := 1, failed := 1, unchangedCount := 0, previouslyFailed := 0, missingExpectedFiles := 1)
  {
    assert DistinctKeys(SevenRecords());
    StatsOfBuild(SevenRecords());
    SevenRecordsTally();
  }

  /** The body of the `get_stats` loop: one record added to the counter its flag and reason select. */
  method TallyRecord(stats: ScanStats, info: PboInfo) returns (next: ScanStats)
    ensures next == Bump(stats, BucketOf(info))
    ensures BucketSum(next) == BucketSum(stats) + 1
  {
    next := stats;
    if info.failed {
      match info.skipReason {
        case Some(Empty) => next := next.(empty := next.empty + 1);
        case Some(NoMatchingFiles) => next := next.(noMatchingFiles := next.noMatchingFiles + 1);
        case Some(InvalidFormat) => next := next.(invalidFormat := next.invalidFormat + 1);
        case Some(Failed) => next := next.(failed := next.failed + 1);
        case Some(MissingExpectedFiles) => next := next.(missingExpectedFiles := next.missingExpectedFiles + 1);
        case None => next := next.(failed := next.failed + 1);
      }
    } else {
      next := next.(processed := next.processed + 1);
    }
  }

  // ---------------------------------------------------------------------
  // The database object.

  /** `ScanDatabase`: the map from archive path to record, updated in place. */
  class ScanDatabase {
    var pbos: map<string, PboInfo>

    /** `ScanDatabase::default()`: no records. */
    constructor ()
      ensures pbos == map[]
    {
      pbos := map[];
    }

    /** `get_pbo_info`: the record stored under `path`, if any. */
    function GetPboInfo(path: string): (r: Option<PboInfo>)
      reads this
      ensures r.Some? <==> path in pbos
      ensures r.Some? ==> r.value == pbos[path]
    {
      Lookup(pbos, path)
    }

    /** `update_pbo`: stores a record with the given fingerprint and flag and no reason or file lists. */
    method UpdatePbo(path: string, hash: string, failed: bool)
      modifies this
      ensures pbos == old(pbos)[path := PlainRecord(hash, failed)]
      ensures GetPboInfo(path) == Some(PlainRecord(hash, failed))
      ensures forall p :: p != path ==> GetPboInfo(p) == old(GetPboInfo(p))
    {
      pbos := pbos[path := PboInfo(hash, failed, None, None, None)];
    }

    /** `update_pbo_with_reason`: stores a record with the given fingerprint, flag and reason. */
    method UpdatePboWithReason(path: string, hash: string, failed: bool, reason: SkipReason)
      modifies this
      ensures pbos == old(pbos)[path := ReasonRecord(hash, failed, reason)]
      ensures GetPboInfo(path) == Some(ReasonRecord(hash, failed, reason))
      ensures forall p :: p != path ==> GetPboInfo(p) == old(GetPboInfo(p))
    {
      pbos := pbos[path := PboInfo(hash, failed, Some(reason), None, None)];
    }

    /**
      `update_pbo_with_files`: stores the outcome of an extraction and
      answers whether any file was extracted.
     */
    method UpdatePboWithFiles(path: string, hash: string, expected: seq<string>, extracted: seq<string>) returns (anyExtracted: bool)
      modifies this
      ensures anyExtracted <==> extracted != []
      ensures path in pbos && (anyExtracted <==> !pbos[path].failed)
      ensures pbos == old(pbos)[path := FilesRecord(hash, expected, extracted)]
      ensures forall p :: p != path ==> GetPboInfo(p) == old(GetPboInfo(p))
    {
      anyExtracted := extracted != [];
      var allExtracted := AllExpectedExtracted(expected, extracted);
      var isFailed := !anyExtracted;
      var reason: Option<SkipReason>;
      if anyExtracted {
        if allExtracted {
          reason := None;
        } else {
          reason := None;
        }
      } else {
        reason := Some(MissingExpectedFiles);
      }
      pbos := pbos[path := PboInfo(hash, isFailed, reason, Some(expected), Some(extracted))];
    }

    /** `get_stats`: one pass over the records, adding each to the counter of its bucket. */
    method GetStats() returns (stats: ScanStats)
      ensures stats == StatsOf(pbos)
      ensures BucketSum(stats) == stats.total
    {
      stats := DefaultStats().(total := |pbos|);
      var remaining := pbos.Keys;
      ghost var done: set<string> := {};
      TalliedNone(pbos);
      while remaining != {}
        invariant remaining + done == pbos.Keys && remaining !! done
        invariant stats == Tallied(pbos, done)
        decreases |remaining|
      {
        var k :| k in remaining;
        var info := pbos[k];
        stats := TallyRecord(stats, info);
        TalliedAdd(pbos, done, k);
        remaining := remaining - {k};
        done := done + {k};
      }
      StatsPartition(pbos);
    }
  }
}
