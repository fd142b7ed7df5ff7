/** The records of the per-archive result database (`database/types.rs`). */
module DatabaseTypes {
  import opened Results

  /** Why an archive was recorded as not (fully) processed. */
  datatype SkipReason = Empty | NoMatchingFiles | InvalidFormat | Failed | MissingExpectedFiles

  /**
    What the database remembers about one archive: the fingerprint it was
    processed at, whether processing failed and why, and, when an extraction
    ran, the files that were expected and the files that were extracted. The
    three optional fields may be absent in records written by older versions.
   */
  datatype PboInfo = PboInfo(
    hash: string,
    failed: bool,
    skipReason: Option<SkipReason>,
    expectedFiles: Option<seq<string>>,
    extractedFiles: Option<seq<string>>)

  /** Counters over the whole database. */
  datatype ScanStats = ScanStats(
    total: nat,
    processed: nat,
    empty: nat,
    noMatchingFiles: nat,
    invalidFormat: nat,
    failed: nat,
    unchangedCount: nat,
    previouslyFailed: nat,
    missingExpectedFiles: nat)

  /** `ScanStats::default()`: every counter zero. */
  function DefaultStats(): (s: ScanStats)
    ensures s.total == s.processed == s.empty == s.noMatchingFiles == s.invalidFormat == 0
    ensures s.failed == s.unchangedCount == s.previouslyFailed == s.missingExpectedFiles == 0
  {
    ScanStats(0, 0, 0, 0, 0, 0, 0, 0, 0)
  }
}
