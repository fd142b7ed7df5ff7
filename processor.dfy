/**
  The extraction processor of `scanner/processor.rs`: for each scanned
  archive with wanted entries, derive and create its cache directory, read
  the archive's prefix, create the output directory under it and try three
  extraction strategies in turn.
 */
module Processor {
  import opened Results
  import opened Text
  import opened Paths
  import opened PboTools
  import opened ContentScan

  /** The processor's settings: where archives are read from, where they are extracted to, and the extension setting. */
  datatype Config = Config(inputDir: FsPath, cacheDir: FsPath, extensions: string, threads: nat, timeout: nat)

  // ---------------------------------------------------------------------------
  // Extraction options

  /** Pieces collected into one `String`, which is what collecting split pieces into a `String` does: they are concatenated. */
  function Concat(pieces: seq<string>): (r: string)
    ensures forall c :: c in r ==> exists i :: 0 <= i < |pieces| && c in pieces[i]
  {
    if pieces == [] then ""
    else
      var r := Concat(pieces[..|pieces| - 1]) + pieces[|pieces| - 1];
      assert forall c :: c in r ==> c in Concat(pieces[..|pieces| - 1]) || c in pieces[|pieces| - 1];
      r
  }

  /**
    `create_extract_options` as written: the extension setting is split at
    commas and the pieces are collected straight into the filter text, so the
    commas are lost.
   */
  function StandardOptionsAsWritten(extensions: string): (o: ExtractOptions)
    ensures o.fileFilter.Some? && ',' !in o.fileFilter.value
    ensures o.noPause && !o.warningsAsErrors && o.verbose && !o.briefListing
  {
    var pieces := Split(extensions, ',');
    DefaultOptions().(fileFilter := Some(Concat(pieces)), noPause := true, warningsAsErrors := false, verbose := true)
  }

  /**
    With the setting written as several extensions, the filter as written is
    a single entry, and for two extensions it is the two run together.
   */
  lemma {:induction false} AsWrittenMergesExtensions(extensions: string)
    requires ',' in extensions
    ensures |Split(StandardOptionsAsWritten(extensions).fileFilter.value, ',')| == 1 < |Split(extensions, ',')|
    ensures StandardOptionsAsWritten("sqf,hpp").fileFilter == Some("sqfhpp")
  {
    SplitNoSep(StandardOptionsAsWritten(extensions).fileFilter.value, ',');
    JoinSplit(extensions, ',');
    assert "sqf,hpp" == "sqf" + "," + "hpp";
    SplitOfTwo("sqf", "hpp");
    assert ["sqf", "hpp"][..1] == ["sqf"];
    assert ["sqf"][..0] == [];
    assert Concat(["sqf"]) == "sqf";
    assert Concat(["sqf", "hpp"]) == "sqf" + "hpp" == "sqfhpp";
    assert StandardOptionsAsWritten("sqf,hpp").fileFilter == Some(Concat(Split("sqf,hpp", ',')));
  }

  lemma SplitOfTwo(a: string, b: string)
    requires ',' !in a && ',' !in b
    ensures Split(a + "," + b, ',') == [a, b]
  {
    assert a + "," + b == a + [','] + b;
    SplitConcat(a, b, ',');
    SplitNoSep(a, ',');
    SplitNoSep(b, ',');
  }

  /**
    `create_extract_options` as evidently intended: the split pieces joined
    back with commas, which is the comma-separated setting itself; no pause,
    warnings not fatal, verbose.
   */
  function StandardOptions(extensions: string): (o: ExtractOptions)
    ensures o.fileFilter == Some(extensions)
    ensures o.noPause && !o.warningsAsErrors && o.verbose && !o.briefListing
  {
    JoinSplit(extensions, ',');
    DefaultOptions().(fileFilter := Some(Join(Split(extensions, ','), ',')), noPause := true, warningsAsErrors := false, verbose := true)
  }

  /** The second attempt's options: the first attempt's with the filter removed, so every entry is extracted. */
  function PermissiveOptions(options: ExtractOptions): (o: ExtractOptions)
    ensures o.fileFilter.None?
    ensures o.(fileFilter := options.fileFilter) == options
  {
    options.(fileFilter := None)
  }

  // ---------------------------------------------------------------------------
  // The fallback chain of `extract_pbo_files`

  /** The three extraction strategies, in the order they are tried. */
  datatype Tier = Standard | Permissive | Direct

  function AllTiers(): seq<Tier> {
    [Standard, Permissive, Direct]
  }

  /** Whether one strategy succeeds on an archive and output directory, given the options the first one uses. */
  predicate Succeeds(tools: Tools, path: FsPath, out: FsPath, options: ExtractOptions, t: Tier) {
    match t
    case Standard => tools.extractWithOptions(path, out, options)
    case Permissive => tools.extractWithOptions(path, out, PermissiveOptions(options))
    case Direct => tools.extractFiles(path, out, None)
  }

  /** The strategies tried, in order, and whether the last one tried succeeded. */
  datatype Extraction = Extraction(tried: seq<Tier>, succeeded: bool)

  /**
    `extract_pbo_files`: the standard extraction with `options`; if it fails
    the permissive one; if that fails too the direct one; an error only when
    all three fail. The source builds `options` with `create_extract_options`,
    that is `StandardOptionsAsWritten`.
   */
  function ExtractPboFiles(tools: Tools, path: FsPath, out: FsPath, options: ExtractOptions): (r: Extraction)
    ensures 1 <= |r.tried| <= 3 && r.tried == AllTiers()[..|r.tried|]
    ensures r.succeeded <==> exists t :: t in AllTiers() && Succeeds(tools, path, out, options, t)
    ensures r.succeeded ==> Succeeds(tools, path, out, options, r.tried[|r.tried| - 1])
    ensures forall i :: 0 <= i < |r.tried| - 1 ==> !Succeeds(tools, path, out, options, r.tried[i])
    ensures !r.succeeded ==> |r.tried| == 3
  {
    assert Standard in AllTiers() && Permissive in AllTiers() && Direct in AllTiers();
    if tools.extractWithOptions(path, out, options) then
      Extraction([Standard], true)
    else if tools.extractWithOptions(path, out, PermissiveOptions(options)) then
      Extraction([Standard, Permissive], true)
    else
      Extraction([Standard, Permissive, Direct], tools.extractFiles(path, out, None))
  }

  /** A reference definition: try the strategies of a list in order and stop at the first that succeeds. */
  function FirstSuccess(tiers: seq<Tier>, tools: Tools, path: FsPath, out: FsPath, options: ExtractOptions): (r: Extraction)
    requires tiers != []
    ensures 1 <= |r.tried| <= |tiers| && r.tried == tiers[..|r.tried|]
  {
    if Succeeds(tools, path, out, options, tiers[0]) then Extraction([tiers[0]], true)
    else if |tiers| == 1 then Extraction(tiers, false)
    else
      var rest := FirstSuccess(tiers[1..], tools, path, out, options);
      Extraction([tiers[0]] + rest.tried, rest.succeeded)
  }

  /** The nested fallbacks of `extract_pbo_files` are the first-success search over the three strategies. */
  lemma ExtractIsFirstSuccess(tools: Tools, path: FsPath, out: FsPath, options: ExtractOptions)
    ensures ExtractPboFiles(tools, path, out, options) == FirstSuccess(AllTiers(), tools, path, out, options)
  {
    assert AllTiers()[1..] == [Permissive, Direct];
    assert [Permissive, Direct][1..] == [Direct];
    var last := FirstSuccess([Direct], tools, path, out, options);
    assert last == Extraction([Direct], Succeeds(tools, path, out, options, Direct));
    var middle := FirstSuccess([Permissive, Direct], tools, path, out, options);
    assert middle == if Succeeds(tools, path, out, options, Permissive) then Extraction([Permissive], true)
      else Extraction([Permissive] + last.tried, last.succeeded);
  }

  /**
    Correcting the standard filter changes nothing but the first attempt:
    the permissive options are the same either way, and when the first
    attempt fares the same under both filters so does the whole chain.
   */
  lemma CorrectionOnlyAffectsFirstAttempt(tools: Tools, path: FsPath, out: FsPath, extensions: string)
    ensures PermissiveOptions(StandardOptionsAsWritten(extensions)) == PermissiveOptions(StandardOptions(extensions))
    ensures (tools.extractWithOptions(path, out, StandardOptionsAsWritten(extensions)) ==
             tools.extractWithOptions(path, out, StandardOptions(extensions))) ==>
      ExtractPboFiles(tools, path, out, StandardOptionsAsWritten(extensions)) ==
        ExtractPboFiles(tools, path, out, StandardOptions(extensions))
  {
    var w, c := StandardOptionsAsWritten(extensions), StandardOptions(extensions);
    assert w.(fileFilter := None) == c.(fileFilter := None);
  }

  // ---------------------------------------------------------------------------
  // Output directories of `prepare_output_dirs`

  /** The archive's cache directory: its path relative to the input directory, under the cache directory, without extension. */
  function BaseDir(cacheDir: FsPath, rel: FsPath): FsPath {
    WithoutExtension(JoinPath(cacheDir, rel))
  }

  /** The output directory: the base directory joined with the archive's prefix, the empty prefix when it has none. */
  function OutputDir(base: FsPath, prefix: Option<string>): FsPath {
    JoinPath(base, ParsePath(if prefix.Some? then prefix.value else ""))
  }

  /** An archive without a prefix is extracted straight into its base directory. */
  lemma NoPrefixOutputIsBase(base: FsPath)
    ensures OutputDir(base, None) == base && OutputDir(base, Some("")) == base
  {
    assert base.parts + [] == base.parts;
  }

  /** A relative prefix appends its components to the base directory, `..` included. */
  lemma RelativePrefixStaysInside(base: FsPath, prefix: string)
    requires prefix == [] || prefix[0] != '/'
    ensures OutputDir(base, Some(prefix)).absolute == base.absolute
    ensures OutputDir(base, Some(prefix)).parts == base.parts + Components(prefix)
  {
  }

  /**
    A prefix that starts with `..` climbs out of the base directory: once the
    file system resolves it, the output is a sibling of the base directory,
    not inside it.
   */
  lemma DotDotPrefixLeavesBase(base: FsPath, name: string)
    requires IsPart(name) && name != ".."
    requires base.parts != [] && ".." !in base.parts
    ensures OutputDir(base, Some("../" + name)) == FsPath(base.absolute, base.parts + ["..", name])
    ensures Resolve(OutputDir(base, Some("../" + name)).parts) == base.parts[..|base.parts| - 1] + [name]
    ensures name != base.parts[|base.parts| - 1] ==> !(base.parts <= Resolve(OutputDir(base, Some("../" + name)).parts))
  {
    assert "../" + name == ".." + ['/'] + name;
    SplitConcat("..", name, '/');
    SplitNoSep("..", '/');
    SplitNoSep(name, '/');
    assert Split("../" + name, '/') == ["..", name];
    assert Parts(["..", name][1..]) == [name];
    assert Components("../" + name) == ["..", name];
    var parts := base.parts + ["..", name];
    assert parts[..|parts| - 1] == base.parts + [".."];
    assert (base.parts + [".."])[..|base.parts|] == base.parts;
    ResolveWithoutDotDot(base.parts);
    assert Resolve(base.parts + [".."]) == base.parts[..|base.parts| - 1];
  }

  /** An absolute prefix replaces the base directory altogether. */
  lemma AbsolutePrefixEscapes(base: FsPath, prefix: string)
    requires prefix != [] && prefix[0] == '/'
    ensures OutputDir(base, Some(prefix)) == ParsePath(prefix)
  {
  }

  /**
    For an archive strictly below the input directory, the base directory's
    components are the cache directory's, then the archive's relative
    directories, then its file stem. For the paths `WalkDir` yields, which
    contain no `..`, that places it inside the cache directory.
   */
  lemma {:induction false} BaseDirUnderCache(cfg: Config, path: FsPath)
    requires StripPrefix(path, cfg.inputDir).Some?
    requires |path.parts| > |cfg.inputDir.parts|
    ensures var base := BaseDir(cfg.cacheDir, StripPrefix(path, cfg.inputDir).value);
      base.absolute == cfg.cacheDir.absolute &&
      |base.parts| == |cfg.cacheDir.parts| + |path.parts| - |cfg.inputDir.parts| &&
      base.parts[..|cfg.cacheDir.parts|] == cfg.cacheDir.parts &&
      base.parts[|base.parts| - 1] == Stem(path.parts[|path.parts| - 1])
  {
    var rel := StripPrefix(path, cfg.inputDir).value;
    var joined := JoinPath(cfg.cacheDir, rel);
    assert rel.parts == path.parts[|cfg.inputDir.parts|..];
    assert joined.parts == cfg.cacheDir.parts + rel.parts;
    assert joined.parts[|joined.parts| - 1] == path.parts[|path.parts| - 1];
    var base := BaseDir(cfg.cacheDir, rel);
    if path.parts[|path.parts| - 1] != ".." {
      assert base.parts == joined.parts[..|joined.parts| - 1] + [Stem(joined.parts[|joined.parts| - 1])];
      assert base.parts[..|cfg.cacheDir.parts|] == joined.parts[..|cfg.cacheDir.parts|];
    }
  }

  /**
    Two different archives with the same extension below the input directory
    get different base directories: stripping the shared extension loses
    nothing.
   */
  lemma {:induction false} BaseDirInjective(cacheDir: FsPath, rel1: FsPath, rel2: FsPath, ext: string)
    requires !rel1.absolute && !rel2.absolute && rel1.parts != [] && rel2.parts != []
    requires NameExtension(rel1.parts[|rel1.parts| - 1]) == Some(ext)
    requires NameExtension(rel2.parts[|rel2.parts| - 1]) == Some(ext)
    requires BaseDir(cacheDir, rel1) == BaseDir(cacheDir, rel2)
    ensures rel1 == rel2
  {
    var n1, n2 := rel1.parts[|rel1.parts| - 1], rel2.parts[|rel2.parts| - 1];
    var j1, j2 := JoinPath(cacheDir, rel1), JoinPath(cacheDir, rel2);
    assert j1.parts == cacheDir.parts + rel1.parts && j2.parts == cacheDir.parts + rel2.parts;
    var b := BaseDir(cacheDir, rel1);
    assert |rel1.parts| == |rel2.parts|;
    var k := |j1.parts| - 1;
    assert j1.parts[k] == n1 && j2.parts[k] == n2;
    NameIsStemDotExtension(n1);
    NameIsStemDotExtension(n2);
    assert n1 != ".." && n2 != "..";
    assert b.parts[k] == Stem(n1) && b.parts[k] == Stem(n2);
    StemsDetermineName(n1, n2, ext);
    forall i | 0 <= i < |rel1.parts| ensures rel1.parts[i] == rel2.parts[i] {
      if i < |rel1.parts| - 1 {
        assert j1.parts[|cacheDir.parts| + i] == b.parts[|cacheDir.parts| + i] == j2.parts[|cacheDir.parts| + i];
      }
    }
  }

  /** Two names with the same extension and the same stem are the same name. */
  lemma StemsDetermineName(n1: string, n2: string, ext: string)
    requires NameExtension(n1) == Some(ext) && NameExtension(n2) == Some(ext)
    requires Stem(n1) == Stem(n2)
    ensures n1 == n2
  {
    NameIsStemDotExtension(n1);
    NameIsStemDotExtension(n2);
  }

  /** What `prepare_output_dirs` yields, and the directories it created, in order. */
  datatype Prepared = Prepared(result: Result<(FsPath, FsPath), ProcessError>, created: seq<FsPath>)

  datatype ProcessError = NotUnderInputDir | CreateDirFailed(dir: FsPath) | ContentsNotListed

  /**
    `prepare_output_dirs`: the archive's path relative to the input
    directory (an error if it is not below it); the base directory, created;
    the archive's prefix from its listing (an error if it cannot be listed);
    the output directory under the base directory, created.
   */
  function PrepareDirs(cfg: Config, tools: Tools, creatable: FsPath -> bool, path: FsPath): (r: Prepared)
    ensures r.result.Ok? <==>
      StripPrefix(path, cfg.inputDir).Some? &&
      creatable(BaseDir(cfg.cacheDir, StripPrefix(path, cfg.inputDir).value)) &&
      tools.listContents(path).Some? &&
      creatable(OutputDir(BaseDir(cfg.cacheDir, StripPrefix(path, cfg.inputDir).value), tools.listContents(path).value.prefix))
    ensures r.result.Ok? ==> r.result.value.0 == BaseDir(cfg.cacheDir, StripPrefix(path, cfg.inputDir).value)
    ensures r.result.Ok? ==> r.created == [r.result.value.0, r.result.value.1]
    ensures r.result.Ok? ==> r.result.value.1 == OutputDir(r.result.value.0, tools.listContents(path).value.prefix)
    ensures StripPrefix(path, cfg.inputDir).None? ==> r == Prepared(Err(NotUnderInputDir), [])
    ensures StripPrefix(path, cfg.inputDir).Some? ==>
      var base := BaseDir(cfg.cacheDir, StripPrefix(path, cfg.inputDir).value);
      (!creatable(base) ==> r == Prepared(Err(CreateDirFailed(base)), [])) &&
      (creatable(base) && tools.listContents(path).None? ==> r == Prepared(Err(ContentsNotListed), [base])) &&
      (creatable(base) && tools.listContents(path).Some? &&
       !creatable(OutputDir(base, tools.listContents(path).value.prefix)) ==>
         r == Prepared(Err(CreateDirFailed(OutputDir(base, tools.listContents(path).value.prefix))), [base]))
    ensures forall d :: d in r.created ==> creatable(d)
    ensures |r.created| <= 2
  {
    match StripPrefix(path, cfg.inputDir)
    case None => Prepared(Err(NotUnderInputDir), [])
    case Some(rel) =>
      var base := BaseDir(cfg.cacheDir, rel);
      if !creatable(base) then Prepared(Err(CreateDirFailed(base)), [])
      else match tools.listContents(path)
        case None => Prepared(Err(ContentsNotListed), [base])
        case Some(listing) =>
          var out := OutputDir(base, listing.prefix);
          if !creatable(out) then Prepared(Err(CreateDirFailed(out)), [base])
          else Prepared(Ok((base, out)), [base, out])
  }

  // ---------------------------------------------------------------------------
  // `process_pbo` and `process_all`

  /** What `process_pbo` yields, the directories it created and the extraction it ran, if any. */
  datatype Processed = Processed(result: Result<(), ProcessError>, created: seq<FsPath>, extraction: Option<Extraction>)

  /**
    `process_pbo`: an archive with no wanted entries is skipped; otherwise
    its directories are prepared and extraction is attempted, whose failure
    is only reported: the archive then still counts as processed. The
    extraction uses the corrected standard options.
   */
  function ProcessPboOutcome(cfg: Config, tools: Tools, creatable: FsPath -> bool, scan: PboScanResult): (r: Processed)
    ensures scan.expectedFiles == [] ==> r == Processed(Ok(()), [], None)
    ensures scan.expectedFiles != [] ==> r.created == PrepareDirs(cfg, tools, creatable, scan.path).created
    ensures scan.expectedFiles != [] ==> r.result == (match PrepareDirs(cfg, tools, creatable, scan.path).result
      case Ok(_) => Ok(()) case Err(e) => Err(e))
    ensures r.extraction.Some? <==> scan.expectedFiles != [] && PrepareDirs(cfg, tools, creatable, scan.path).result.Ok?
    ensures r.extraction.Some? ==>
      (r.result.Ok? &&
       r.extraction.value == ExtractPboFiles(tools, scan.path, PrepareDirs(cfg, tools, creatable, scan.path).result.value.1, StandardOptions(cfg.extensions)))
    ensures forall d :: d in r.created ==> creatable(d)
  {
    if scan.expectedFiles == [] then Processed(Ok(()), [], None)
    else
      var prepared := PrepareDirs(cfg, tools, creatable, scan.path);
      match prepared.result
      case Err(e) => Processed(Err(e), prepared.created, None)
      case Ok((_, out)) =>
        Processed(Ok(()), prepared.created, Some(ExtractPboFiles(tools, scan.path, out, StandardOptions(cfg.extensions))))
  }

  /** An archive fails to process exactly when it has wanted entries and one of the four preparation steps fails. */
  lemma ProcessFailsIff(cfg: Config, tools: Tools, creatable: FsPath -> bool, scan: PboScanResult)
    ensures ProcessPboOutcome(cfg, tools, creatable, scan).result.Err? <==>
      scan.expectedFiles != [] &&
      (StripPrefix(scan.path, cfg.inputDir).None? ||
       !creatable(BaseDir(cfg.cacheDir, StripPrefix(scan.path, cfg.inputDir).value)) ||
       tools.listContents(scan.path).None? ||
       !creatable(OutputDir(BaseDir(cfg.cacheDir, StripPrefix(scan.path, cfg.inputDir).value), tools.listContents(scan.path).value.prefix)))
  {
  }

  /** Whether the extraction strategies succeed has no bearing on the result of `process_pbo`. */
  lemma ExtractionOutcomeIgnored(cfg: Config, tools1: Tools, tools2: Tools, creatable: FsPath -> bool, scan: PboScanResult)
    requires tools1.listContents == tools2.listContents
    ensures ProcessPboOutcome(cfg, tools1, creatable, scan).result == ProcessPboOutcome(cfg, tools2, creatable, scan).result
    ensures ProcessPboOutcome(cfg, tools1, creatable, scan).created == ProcessPboOutcome(cfg, tools2, creatable, scan).created
  {
  }

  /** How many of the archives `process_pbo` reports as processed. */
  function SuccessCount(cfg: Config, tools: Tools, creatable: FsPath -> bool, scans: seq<PboScanResult>): (n: nat)
    ensures n <= |scans|
  {
    if scans == [] then 0
    else
      SuccessCount(cfg, tools, creatable, scans[..|scans| - 1]) +
      (if ProcessPboOutcome(cfg, tools, creatable, scans[|scans| - 1]).result.Ok? then 1 else 0)
  }

  /** Every directory the processing of the archives creates. */
  function CreatedBy(cfg: Config, tools: Tools, creatable: FsPath -> bool, scans: seq<PboScanResult>): (ds: set<FsPath>)
    ensures forall d :: d in ds ==> creatable(d)
  {
    if scans == [] then {}
    else
      var last := ProcessPboOutcome(cfg, tools, creatable, scans[|scans| - 1]).created;
      CreatedBy(cfg, tools, creatable, scans[..|scans| - 1]) + set d | d in last
  }

  /**
    The number of archives processed does not depend on the order they are
    handled in, so the parallel iteration of `process_all` counts as a
    sequential one does.
   */
  lemma SuccessCountPermutation(cfg: Config, tools: Tools, creatable: FsPath -> bool, a: seq<PboScanResult>, b: seq<PboScanResult>)
    requires multiset(a) == multiset(b)
    ensures SuccessCount(cfg, tools, creatable, a) == SuccessCount(cfg, tools, creatable, b)
  {
    var ok := scan => ProcessPboOutcome(cfg, tools, creatable, scan).result.Ok?;
    SuccessCountIsCountIf(cfg, tools, creatable, ok, a);
    SuccessCountIsCountIf(cfg, tools, creatable, ok, b);
    CountIfPermutation(ok, a, b);
  }

  /** How many elements of `s` satisfy `p`. */
  function CountIf<T>(p: T -> bool, s: seq<T>): (n: nat)
    ensures n <= |s|
  {
    if s == [] then 0 else CountIf(p, s[..|s| - 1]) + (if p(s[|s| - 1]) then 1 else 0)
  }

  lemma {:induction false} SuccessCountIsCountIf(cfg: Config, tools: Tools, creatable: FsPath -> bool,
                                                 ok: PboScanResult -> bool, scans: seq<PboScanResult>)
    requires forall scan :: ok(scan) == ProcessPboOutcome(cfg, tools, creatable, scan).result.Ok?
    ensures SuccessCount(cfg, tools, creatable, scans) == CountIf(ok, scans)
  {
    if scans != [] {
      SuccessCountIsCountIf(cfg, tools, creatable, ok, scans[..|scans| - 1]);
    }
  }

  lemma {:induction false} CountIfAppend<T>(p: T -> bool, a: seq<T>, b: seq<T>)
    ensures CountIf(p, a + b) == CountIf(p, a) + CountIf(p, b)
    decreases |b|
  {
    if b == [] {
      assert a + b == a;
    } else {
      var b' := b[..|b| - 1];
      CountIfAppend(p, a, b');
      assert (a + b)[..|a + b| - 1] == a + b';
    }
  }

  /** Counting is invariant under permutation. */
  lemma {:induction false} CountIfPermutation<T>(p: T -> bool, a: seq<T>, b: seq<T>)
    requires multiset(a) == multiset(b)
    ensures CountIf(p, a) == CountIf(p, b)
    decreases |a|
  {
    if a != [] {
      var x := a[|a| - 1];
      var a' := a[..|a| - 1];
      var j := RemoveMatching(a, b);
      var b' := b[..j] + b[j + 1..];
      CountIfPermutation(p, a', b');
      assert a == a' + [x];
      assert b == b[..j] + [x] + b[j + 1..];
      CountIfAppend(p, a', [x]);
      CountIfAppend(p, b[..j] + [x], b[j + 1..]);
      CountIfAppend(p, b[..j], [x]);
      CountIfAppend(p, b[..j], b[j + 1..]);
      assert [x][..0] == [];
    }
  }

  /** The last element of `a` occurs in `b` at `j`, and removing it from both keeps them permutations of each other. */
  lemma RemoveMatching<T>(a: seq<T>, b: seq<T>) returns (j: nat)
    requires a != [] && multiset(a) == multiset(b)
    ensures j < |b| && b[j] == a[|a| - 1]
    ensures multiset(a[..|a| - 1]) == multiset(b[..j] + b[j + 1..])
  {
    var x := a[|a| - 1];
    var a' := a[..|a| - 1];
    assert a == a' + [x];
    assert x in multiset(b);
    j :| 0 <= j < |b| && b[j] == x;
    var b' := b[..j] + b[j + 1..];
    assert b == b[..j] + [x] + b[j + 1..];
    assert multiset(b) == multiset(b[..j]) + multiset{x} + multiset(b[j + 1..]);
    assert multiset(b') == multiset(b[..j]) + multiset(b[j + 1..]);
    assert multiset(b') == multiset(b) - multiset{x};
    assert multiset(a') == multiset(a) - multiset{x};
  }

  /** Archives with no wanted entries always count as processed. */
  lemma {:induction false} SkippedCountAsProcessed(cfg: Config, tools: Tools, creatable: FsPath -> bool, scans: seq<PboScanResult>)
    requires forall i :: 0 <= i < |scans| ==> scans[i].expectedFiles == []
    ensures SuccessCount(cfg, tools, creatable, scans) == |scans|
    ensures CreatedBy(cfg, tools, creatable, scans) == {}
  {
    if scans != [] {
      SkippedCountAsProcessed(cfg, tools, creatable, scans[..|scans| - 1]);
    }
  }

  /** Processing one more archive adds its outcome to the count and its directories to those created. */
  lemma ProcessStep(cfg: Config, tools: Tools, creatable: FsPath -> bool, scans: seq<PboScanResult>, i: nat)
    requires i < |scans|
    ensures var next := ProcessPboOutcome(cfg, tools, creatable, scans[i]);
      SuccessCount(cfg, tools, creatable, scans[..i + 1]) ==
        SuccessCount(cfg, tools, creatable, scans[..i]) + (if next.result.Ok? then 1 else 0) &&
      CreatedBy(cfg, tools, creatable, scans[..i + 1]) ==
        CreatedBy(cfg, tools, creatable, scans[..i]) + set d | d in next.created
  {
    assert scans[..i + 1][..i] == scans[..i];
  }

  /** The file system as the processor sees it: the directories that exist, and whether creating a directory succeeds. */
  class FileSystem {
    const creatable: FsPath -> bool
    var dirs: set<FsPath>

    constructor (creatable: FsPath -> bool, dirs: set<FsPath>)
      ensures this.creatable == creatable && this.dirs == dirs
    {
      this.creatable := creatable;
      this.dirs := dirs;
    }

    /** `std::fs::create_dir_all`: on success the directory exists. */
    method CreateDirAll(dir: FsPath) returns (ok: bool)
      modifies this
      ensures ok == creatable(dir)
      ensures dirs == if ok then old(dirs) + {dir} else old(dirs)
    {
      ok := creatable(dir);
      if ok {
        dirs := dirs + {dir};
      }
    }
  }

  /** `PboProcessor`: the settings, the archive library and the file system it writes to. */
  class PboProcessor {
    const config: Config
    const tools: Tools
    const fs: FileSystem

    constructor (config: Config, tools: Tools, fs: FileSystem)
      ensures this.config == config && this.tools == tools && this.fs == fs
    {
      this.config := config;
      this.tools := tools;
      this.fs := fs;
    }

    /** `prepare_output_dirs`, creating the directories that `PrepareDirs` names. */
    method PrepareOutputDirs(path: FsPath) returns (r: Result<(FsPath, FsPath), ProcessError>)
      modifies fs
      ensures r == PrepareDirs(config, tools, fs.creatable, path).result
      ensures var created := PrepareDirs(config, tools, fs.creatable, path).created;
        fs.dirs == old(fs.dirs) + set d | d in created
    {
      var rel := StripPrefix(path, config.inputDir);
      if rel.None? {
        return Err(NotUnderInputDir);
      }
      var base := BaseDir(config.cacheDir, rel.value);
      var ok := fs.CreateDirAll(base);
      if !ok {
        return Err(CreateDirFailed(base));
      }
      var listing := tools.listContents(path);
      if listing.None? {
        return Err(ContentsNotListed);
      }
      var out := OutputDir(base, listing.value.prefix);
      ok := fs.CreateDirAll(out);
      if !ok {
        return Err(CreateDirFailed(out));
      }
      return Ok((base, out));
    }

    /** `process_pbo`, with the effects that `ProcessPboOutcome` describes. */
    method ProcessPbo(scan: PboScanResult) returns (r: Result<(), ProcessError>)
      modifies fs
      ensures r == ProcessPboOutcome(config, tools, fs.creatable, scan).result
      ensures var created := ProcessPboOutcome(config, tools, fs.creatable, scan).created;
        fs.dirs == old(fs.dirs) + set d | d in created
    {
      if scan.expectedFiles == [] {
        return Ok(());
      }
      var prepared := PrepareOutputDirs(scan.path);
      if prepared.Err? {
        return Err(prepared.error);
      }
      var extraction := ExtractPboFiles(tools, scan.path, prepared.value.1, StandardOptions(config.extensions));
      return Ok(());
    }

    /**
      `process_all`: process every archive and count how many were
      processed and how many failed; the run itself always succeeds.
     */
    method ProcessAll(scans: seq<PboScanResult>) returns (r: Result<(), ProcessError>, successes: nat, failures: nat)
      modifies fs
      ensures r.Ok?
      ensures successes == SuccessCount(config, tools, fs.creatable, scans)
      ensures successes + failures == |scans|
      ensures fs.dirs == old(fs.dirs) + CreatedBy(config, tools, fs.creatable, scans)
    {
      successes := 0;
      for i := 0 to |scans|
        invariant successes == SuccessCount(config, tools, fs.creatable, scans[..i])
        invariant fs.dirs == old(fs.dirs) + CreatedBy(config, tools, fs.creatable, scans[..i])
      {
        ProcessStep(config, tools, fs.creatable, scans, i);
        var result := ProcessPbo(scans[i]);
        if result.Ok? {
          successes := successes + 1;
        }
      }
      assert scans[..|scans|] == scans;
      failures := |scans| - successes;
      r := Ok(());
    }
  }
}
