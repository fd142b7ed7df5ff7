# Archive extraction core, modelled in Dafny

This project models the core of a tool that extracts selected files from PBO
game archives into a cache directory, together with proofs about that model.
The tool has four parts:

- **Result database.** A map from an archive's path to a record holding the
  archive's fingerprint, whether processing failed and why, and the files
  expected and extracted. The database is updated in place.
- **Skip rule.** An archive is skipped when a successful record at the same
  fingerprint exists.
- **Content scan.** The scan lists an archive's entries and keeps those whose
  extension the filter text names.
- **Processor.** For each scanned archive with wanted entries, the processor
  derives and creates an output directory. It then tries three extraction
  strategies in turn.

The archive library's listing and extraction calls are parameters of the model
(`PboTools.Tools`), and so is the outcome of creating a directory
(`Processor.FileSystem.creatable`). Each call either succeeds or fails.
Beyond that, the model assumes one thing about the library:
`ExtractOptions::default()` has every flag off and no file filter
(`PboTools.DefaultOptions`). The library's source is not part of this model.

Modules, one per file:

| file | module | models |
|---|---|---|
| `results.dfy` | `Results` | `Option` and `Result` |
| `text.dfy` | `Text` | `str::trim`, ASCII `to_lowercase`, `split` on one character, substring search |
| `paths.dfy` | `Paths` | `Path::file_name`, `extension` and `file_stem` on text; `join`, `strip_prefix` and `with_extension("")` on component paths |
| `tally.dfy` | `Tally` | counting a map's values by class, and the partition lemma |
| `database_types.dfy` | `DatabaseTypes` | `src/database/types.rs` |
| `database.dfy` | `Database` | `src/database/operations.rs` |
| `legacy_database.dfy` | `LegacyDatabase` | `src/types.rs` |
| `extension_filter.dfy` | `ExtensionFilter` | `matches_extension` of `src/utils/mod.rs` |
| `pbo_tools.dfy` | `PboTools` | the options record and the calls of the archive library |
| `content_scan.dfy` | `ContentScan` | `src/scanner/utils.rs` and `PboScanResult` of `src/scanner/types.rs` |
| `processor.dfy` | `Processor` | `src/scanner/processor.rs` |

The processor's directory creation and `process_all` loop are methods of a
`PboProcessor` class. They change the `dirs` field of a `FileSystem` object,
and their `ensures` tie the new state to pure functions (`PrepareDirs`,
`ProcessPboOutcome`, `SuccessCount`, `CreatedBy`), whose properties are proved
as lemmas.

### Behaviour of the code worth knowing

The model follows the code in four places where a reader might expect
something else:

- **Content scan filter.**
  - `scan_pbo_contents` (`src/scanner/utils.rs`) keeps a name when its
    extension occurs as a substring of the filter text. It is not a
    case-insensitive allow-list like `matches_extension`.
  - The test is case-sensitive, and an empty filter keeps only names whose
    extension is empty.
  - `ContentScan.Keeps` models the code. Three lemmas state how it differs
    from `matches_extension`:
    - `ContentScan.FragmentPassesScanOnly`;
    - `ContentScan.UpperCasePassesAllowListOnly`;
    - `ContentScan.EmptyFilterDiffers`.
- **Extraction outcome.**
  - `process_pbo` (`src/scanner/processor.rs:64-87`) only logs extraction
    failures and returns success.
  - It does not check the extracted files, and it writes nothing to the
    result database.
- **Zero-byte archives.**
  - `scan_pbo_contents` has no special case for an empty archive file, so the
    model always calls the listing.
- **Archive prefix.**
  - The output directory is the base directory joined with the prefix read
    from the archive's own listing (`src/scanner/processor.rs:109-113`).
  - An absolute prefix replaces the base directory
    (`Processor.AbsolutePrefixEscapes`).
  - A prefix starting with `..` climbs out of it once the file system
    resolves the path (`Processor.DotDotPrefixLeavesBase`).
  - So an archive can have its files written outside the cache directory.

## Model

| member | source | states |
|---|---|---|
| DatabaseTypes.DefaultStats | src/database/types.rs:27-38 | every counter of the default statistics is zero |
| Database.PlainRecord | src/database/operations.rs:51-62 | the record `update_pbo` writes has the given fingerprint and flag, no reason and no file lists |
| Database.ReasonRecord | src/database/operations.rs:64-75 | the record `update_pbo_with_reason` writes has the given fingerprint, flag and reason, and no file lists |
| Database.FilesRecord | src/database/operations.rs:77-129 | the record `update_pbo_with_files` writes is failed iff nothing was extracted; it has no reason iff something was extracted, otherwise `MissingExpectedFiles`; both lists are stored as given |
| Database.PartialExtractionIsSuccess | src/database/operations.rs:100-114 | when something was extracted but an expected file is missing, the record is still a success with no reason |
| Database.Lookup | src/database/operations.rs:37-49 | a record is found iff the path is a key, and it is that key's record |
| Database.SkipIff | src/database/operations.rs:343-403 | an archive is skipped iff a non-failed record with the same fingerprint exists |
| Database.FailedIsRetried | src/database/operations.rs:387-403 | a failed record is processed again whatever the fingerprint |
| Database.SkipAfterFilesRecord | src/database/operations.rs:466-524 | after an extraction is recorded, the same archive at the same fingerprint is skipped iff something was extracted, and is processed again at any other fingerprint |
| Database.SkipUnaffectedByOtherKeys | src/database/operations.rs:51-129 | writing one archive's record leaves the skip decision for every other archive unchanged |
| Database.StatsOf | src/database/operations.rs:131-136 | the statistics' total is the number of records; `unchanged` and `previously_failed` stay zero |
| Database.TalliedAdd | src/database/operations.rs:137-150 | tallying one more record adds one to exactly the counter of its bucket |
| Database.StatsPartition | src/database/operations.rs:131-153 | the six outcome counters add up to the total |
| Database.StatsInsert | src/database/operations.rs:131-153 | adding a new archive's record adds one to the total and one to the counter of its bucket, and leaves the other counters alone |
| Database.FailedWithoutReasonCountsAsFailed | src/database/operations.rs:145 | a failed record without a reason is counted under `failed` |
| Database.StatsOfBuild | src/database/operations.rs:131-153 | writing records under distinct paths one after another tallies each of them exactly once |
| Database.StatsOfSevenRecords | src/database/operations.rs:303-341 | on the seven-archive database of the tests the counters are 7 in total, 2 processed (the partial extraction among them), 1 for each failure reason and 1 missing-expected-files |
| Database.TallyRecord | src/database/operations.rs:138-149 | one loop step of `get_stats` adds one to the counter the record's flag and reason select |
| Database.ScanDatabase.constructor | src/database/types.rs:22-25 | the default database has no records |
| Database.ScanDatabase.GetPboInfo | src/database/operations.rs:37-49 | the lookup returns the record stored under the path, and nothing for a path never written |
| Database.ScanDatabase.UpdatePbo | src/database/operations.rs:51-62 | stores the plain record under the path; every other path's record is unchanged |
| Database.ScanDatabase.UpdatePboWithReason | src/database/operations.rs:64-75 | stores the record with the reason under the path; every other path's record is unchanged |
| Database.ScanDatabase.UpdatePboWithFiles | src/database/operations.rs:77-129 | stores the files record and answers whether anything was extracted, which is exactly whether the stored record is not failed; every other path's record is unchanged |
| Database.ScanDatabase.GetStats | src/database/operations.rs:131-153 | returns the tally of every record, whose six outcome counters add up to the total |
| LegacyDatabase.DefaultStats | src/types.rs:100-110 | every counter of the default statistics is zero |
| LegacyDatabase.Lookup | src/types.rs:49-51 | a record is found iff the path is a key, and it is that key's record |
| LegacyDatabase.StatsOf | src/types.rs:75-79 | the total is the number of records, and `unchanged` stays zero |
| LegacyDatabase.TalliedAdd | src/types.rs:81-94 | tallying one more record adds one to its reason counter and to `previously_failed` when it failed, and one to `processed` otherwise |
| LegacyDatabase.ProcessedAreNotFailed | src/types.rs:81-94 | the records counted as processed are exactly those that did not fail |
| LegacyDatabase.StatsPartition | src/types.rs:75-97 | `processed + previously_failed = total`, and the four reason counters add up to `previously_failed` |
| LegacyDatabase.TallyRecord | src/types.rs:82-93 | one loop step adds one to the record's counter, and to exactly one of `processed` and `previously_failed` |
| LegacyDatabase.ScanDatabase.constructor | src/types.rs:21-24 | the default database has no records |
| LegacyDatabase.ScanDatabase.GetPboInfo | src/types.rs:49-51 | the lookup returns the record stored under the path, and nothing for a path never written |
| LegacyDatabase.ScanDatabase.UpdatePbo | src/types.rs:53-62 | stores the fingerprint and flag with no reason under the path; every other path's record is unchanged |
| LegacyDatabase.ScanDatabase.UpdatePboWithReason | src/types.rs:64-73 | stores the fingerprint, flag and reason under the path; every other path's record is unchanged |
| LegacyDatabase.ScanDatabase.GetStats | src/types.rs:75-97 | returns the tally of every record, with both partitions of the total holding |
| Paths.NameExtension | src/utils/mod.rs:51 | the extension of a file name contains no dot |
| Paths.NameIsStemDotExtension | src/scanner/processor.rs:92 | a name with an extension is its non-empty stem, a dot and the extension |
| Paths.StemDotExtension | src/utils/mod.rs:51 | a stem, a dot and a dot-free extension give back that extension and that stem |
| Paths.Extension | src/utils/mod.rs:51 | the extension of a path contains no dot and no separator |
| Paths.ExtensionOfFileInDir | src/utils/mod.rs:51 | the extension is read from the last component only, whatever directory precedes it |
| Paths.NoDotNoExtension | src/utils/mod.rs:128-131 | a name with no dot has no extension |
| Paths.StripPrefix | src/scanner/processor.rs:91 | stripping succeeds iff the base's components begin the path, and the base joined with the result gives the path back |
| Paths.StripPrefixOfJoin | src/scanner/processor.rs:91-92 | stripping the base from the base joined with a relative path gives that relative path |
| Paths.WithoutExtension | src/scanner/processor.rs:92 | removing the extension changes only the last component |
| ExtensionFilter.MatchesExtension | src/utils/mod.rs:46-60 | an empty list matches every path; with a non-empty list, a path with no extension never matches |
| ExtensionFilter.MatchesIffListed | src/utils/mod.rs:53-56 | a path matches a comma-joined list iff its extension equals one of the entries, once the entry is trimmed and both sides are lower-cased |
| ExtensionFilter.PaddedEntryMatches | src/utils/mod.rs:54 | an entry padded with whitespace still matches the extension it surrounds |
| ExtensionFilter.ListCaseIgnored | src/utils/mod.rs:55 | lower-casing the list does not change the answer |
| ExtensionFilter.PathCaseIgnored | src/utils/mod.rs:52 | lower-casing the path does not change the answer |
| PboTools.DefaultOptions | src/scanner/processor.rs:129 | the default options have every flag off and no filter |
| ContentScan.ListingOptions | src/scanner/utils.rs:23-28 | the scan lists with no pause, warnings not fatal and a brief listing, other options at their defaults |
| ContentScan.FilterIsSubsequence | src/scanner/utils.rs:31-45 | the kept names are an order-preserving selection of the listed names, so there are no more of them |
| ContentScan.FilterMembership | src/scanner/utils.rs:38-41 | a name is kept iff it was listed, has an extension, and that extension occurs in the filter text |
| ContentScan.NoExtensionNeverKept | src/scanner/utils.rs:38-40 | a name without an extension is never kept |
| ContentScan.EmptyFilterKeepsOnlyEmptyExtensions | src/scanner/utils.rs:38-41 | with an empty filter text only names with an empty extension are kept |
| ContentScan.FragmentPassesScanOnly | src/scanner/utils.rs:39 | a fragment of an allowed extension passes the scan but not `matches_extension` |
| ContentScan.UpperCasePassesAllowListOnly | src/scanner/utils.rs:39 | an allowed extension in upper case passes `matches_extension` but not the scan |
| ContentScan.EmptyFilterDiffers | src/scanner/utils.rs:39 | an empty filter keeps `x.sqf` in `matches_extension` but not in the scan |
| ContentScan.ScanPboContents | src/scanner/utils.rs:11-53 | the scan fails iff the listing fails; otherwise it returns the given path and, in listing order, exactly the listed names that pass the scan's test |
| Processor.StandardOptionsAsWritten | src/scanner/processor.rs:128-135 | the filter as written contains no comma; no pause, warnings not fatal, verbose |
| Processor.AsWrittenMergesExtensions | src/scanner/processor.rs:130 | a setting listing several extensions becomes a filter naming one entry; `"sqf,hpp"` becomes `"sqfhpp"` |
| Processor.StandardOptions | src/scanner/processor.rs:128-135 | the corrected filter is the comma-separated setting itself; no pause, warnings not fatal, verbose |
| Processor.PermissiveOptions | src/scanner/processor.rs:157-158 | the permissive options are the first attempt's with the filter removed, and nothing else changed |
| Processor.ExtractPboFiles | src/scanner/processor.rs:137-183 | given the first attempt's options: at most three strategies are tried, in the order standard, permissive, direct; each is tried only after the ones before it failed; the chain succeeds iff some strategy succeeds, and fails only after all three were tried |
| Processor.CorrectionOnlyAffectsFirstAttempt | src/scanner/processor.rs:128-159 | correcting the filter leaves the permissive options unchanged, and when the first attempt fares the same under both filters the whole chain does |
| Processor.FirstSuccess | src/scanner/processor.rs:145-182 | the reference first-success search tries a prefix of its list of strategies |
| Processor.ExtractIsFirstSuccess | src/scanner/processor.rs:145-182 | the nested fallbacks are the first-success search over the three strategies |
| Processor.NoPrefixOutputIsBase | src/scanner/processor.rs:109-113 | an archive without a prefix is extracted into its base directory |
| Processor.RelativePrefixStaysInside | src/scanner/processor.rs:113 | a relative prefix appends its components to the base directory, `..` included |
| Processor.DotDotPrefixLeavesBase | src/scanner/processor.rs:109-113 | a prefix `../name` gives the base directory followed by `..` and `name`, which resolves to a sibling of the base directory, outside it unless `name` is the base's own last component |
| Processor.AbsolutePrefixEscapes | src/scanner/processor.rs:113 | an absolute prefix replaces the base directory |
| Processor.BaseDirUnderCache | src/scanner/processor.rs:91-92 | for an archive strictly below the input directory, the base directory's components are the cache directory's, then the archive's relative directories, then its file stem |
| Processor.BaseDirInjective | src/scanner/processor.rs:91-92 | two different archives with the same extension get different base directories |
| Processor.PrepareDirs | src/scanner/processor.rs:89-118 | preparation succeeds iff the path is below the input directory, the base directory can be created, the archive can be listed and the output directory can be created; on success it returns the base directory derived from the relative path and the base joined with the prefix, and created exactly those two; each failing step gives its own error (not under the input directory, base not created, not listed, output not created) and has created nothing, nothing, the base, the base respectively |
| Processor.ProcessPboOutcome | src/scanner/processor.rs:64-87 | no wanted entries gives success with nothing created and no extraction; otherwise the result and the directories created are preparation's, and extraction (with the corrected options) runs in the output directory exactly when preparation succeeded, without affecting the result |
| Processor.ProcessFailsIff | src/scanner/processor.rs:64-118 | processing fails iff there are wanted entries and one of the four preparation steps fails |
| Processor.ExtractionOutcomeIgnored | src/scanner/processor.rs:77-86 | whether the extraction strategies succeed changes neither the result nor the directories created |
| Processor.SuccessCount | src/scanner/processor.rs:53 | the success count is at most the number of archives |
| Processor.SuccessCountPermutation | src/scanner/processor.rs:43-54 | the success count does not depend on the order the archives are processed in |
| Processor.SkippedCountAsProcessed | src/scanner/processor.rs:68-71 | archives without wanted entries all count as successes and create nothing |
| Processor.FileSystem.CreateDirAll | src/scanner/processor.rs:94 | directory creation succeeds as the file system allows, and on success the directory exists |
| Processor.PboProcessor.constructor | src/scanner/processor.rs:23-37 | the processor keeps the settings, the library and the file system it is given |
| Processor.PboProcessor.PrepareOutputDirs | src/scanner/processor.rs:89-118 | returns what `PrepareDirs` describes and creates exactly its directories |
| Processor.PboProcessor.ProcessPbo | src/scanner/processor.rs:64-87 | returns what `ProcessPboOutcome` describes and creates exactly its directories |
| Processor.PboProcessor.ProcessAll | src/scanner/processor.rs:39-62 | always succeeds; the success count is the number of archives processed without error, and successes plus failures equal the number of archives |

## Left out

- Fingerprinting (`calculate_file_hash`) is not modelled. It reads the file
  system and hashes with SHA-256, so the fingerprint is a plain string input.
- Loading and saving either database as JSON (`load_or_create`, `save`) is
  not modelled, because it is file I/O.
- The prescanner, the coordinator and `src/mod.rs` are not modelled. They
  walk directories, probe permissions, fan work out concurrently and wrap
  library calls.
  - None of them consults the database directly. The prescanner's skip
    decision is made by `check_pbo_hash` (called at
    `src/scanner/prescanner.rs:68` and `:98`), which is not part of this model.
  - `Database.NeedsProcessing` models the skip rule that the database's own
    tests state (`src/database/operations.rs:359-362`).
- The archive library is not modelled beyond its calls' success or failure.
  - Timeouts are part of that success or failure.
  - Extracted file contents are not modelled.
- `Processor.PboProcessor.ProcessAll` processes archives one after another.
  The source uses a rayon parallel iterator whose jobs take at most
  `threads` archives each (`with_max_len`).
  `Processor.SuccessCountPermutation` shows that the counts do not depend on
  the order.
- `Processor.FileSystem.CreateDirAll` records only the directory itself, not
  any missing parent directories created along the way.
  - Whether creation succeeds is a parameter of the file system.
  - A failed creation is assumed to leave nothing behind.
- `create_pbo_api` is not modelled beyond `PboTools.Tools`. It only builds
  the library handle from the default configuration and the timeout.
- Logging and progress output are not modelled.
- Processor.ProcessPboOutcome: the extraction chain it records runs with the
  corrected options `Processor.StandardOptions`, not the concatenated filter
  that `create_extract_options` builds (see Findings).
  - `Processor.ExtractPboFiles` applied to `Processor.StandardOptionsAsWritten`
    is the chain as written.
  - `Processor.CorrectionOnlyAffectsFirstAttempt` shows that only the first
    attempt can differ, and `Processor.ExtractionOutcomeIgnored` that the
    result and the directories created do not depend on it.
- Paths.StripPrefix: fails whenever one path is absolute and the other
  relative. Rust's `strip_prefix` with an empty relative base succeeds on an
  absolute path and returns it unchanged. `Paths.Parts` drops a leading `.`, which Rust keeps. Neither
  case arises for the paths `WalkDir` yields below the input directory.
- `Text.Lower` lower-cases ASCII letters only. Rust's `to_lowercase` maps
  every Unicode letter, so the model does not decide case-insensitive
  matching for non-ASCII extensions.
- Paths are text with `/` as the only separator, as on Unix.
  - `to_string_lossy` is the identity, because strings are sequences of
    characters.
  - Windows separators and prefixes are not modelled.
- `PboScanResult` of `src/types.rs` (with a hash field) is not modelled. It is
  used by no modelled operation.
- The extraction result value that the library returns is not modelled. Only
  whether each strategy succeeded is kept.

## Findings

| source | as written | input that shows it | evidently intended | confidence | as-written member | corrected member |
|---|---|---|---|---|---|---|
| src/scanner/processor.rs:130 | the extension setting is split at commas and the pieces are collected into the `String` filter, which concatenates them without separators | extensions `"sqf,hpp"` give the filter `"sqfhpp"`, one entry that names neither extension | the filter keeps the comma-separated list, i.e. the pieces joined back with commas | medium: depends on `file_filter` being a `String`, as its use in the examples shows; not executed | Processor.AsWrittenMergesExtensions | Processor.StandardOptions |
