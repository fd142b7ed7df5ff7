/**
  The content scan of `scanner/utils.rs`: list an archive's entries and keep
  those whose extension occurs in the filter text.
 */
module ContentScan {
  import opened Results
  import opened Text
  import opened Paths
  import opened PboTools
  import ExtensionFilter

  /** `PboScanResult` of `scanner/types.rs`: an archive and the entries wanted from it. */
  datatype PboScanResult = PboScanResult(path: FsPath, expectedFiles: seq<string>)

  datatype ScanError = ListingFailed

  /** The listing options of the scan: no pause, warnings not fatal, brief listing. */
  function ListingOptions(): (o: ExtractOptions)
    ensures o.noPause && !o.warningsAsErrors && o.briefListing
    ensures o == DefaultOptions().(noPause := true, briefListing := true)
  {
    DefaultOptions().(noPause := true, warningsAsErrors := false, briefListing := true)
  }

  /**
    The scan's test on one entry name: the name has an extension and that
    extension occurs, case-sensitively, anywhere in the filter text.
   */
  predicate Keeps(extensions: string, name: string) {
    match Extension(name)
    case None => false
    case Some(ext) => Contains(extensions, ext)
  }

  /** The names of `files` that `Keeps` accepts, in their order. */
  function FilterNames(files: seq<string>, extensions: string): seq<string> {
    if files == [] then []
    else
      var last := files[|files| - 1];
      FilterNames(files[..|files| - 1], extensions) + (if Keeps(extensions, last) then [last] else [])
  }

  /** `a` is `b` with some elements left out, order kept. */
  predicate SubsequenceOf<T(==)>(a: seq<T>, b: seq<T>) {
    if a == [] then true
    else if b == [] then false
    else if a[|a| - 1] == b[|b| - 1] then SubsequenceOf(a[..|a| - 1], b[..|b| - 1])
    else SubsequenceOf(a, b[..|b| - 1])
  }

  /** The kept names are an order-preserving selection of the listed ones, so there are no more of them. */
  lemma {:induction false} FilterIsSubsequence(files: seq<string>, extensions: string)
    ensures SubsequenceOf(FilterNames(files, extensions), files)
    ensures |FilterNames(files, extensions)| <= |files|
  {
    if files != [] {
      var init := files[..|files| - 1];
      var last := files[|files| - 1];
      FilterIsSubsequence(init, extensions);
      assert init + [last] == files;
      SubsequenceAppend(FilterNames(init, extensions), init, last, Keeps(extensions, last));
    }
  }

  /** Extending a sequence by one element, and its subsequence by that element or nothing, keeps the relation. */
  lemma SubsequenceAppend<T>(a: seq<T>, b: seq<T>, x: T, keep: bool)
    requires SubsequenceOf(a, b)
    ensures SubsequenceOf(a + (if keep then [x] else []), b + [x])
  {
    if keep {
      var a' := a + [x];
      assert a'[..|a'| - 1] == a;
      assert (b + [x])[..|b|] == b;
    } else {
      assert a + [] == a;
      SubsequenceExtend(a, b, x);
    }
  }

  lemma {:induction false} SubsequenceExtend<T>(a: seq<T>, b: seq<T>, x: T)
    requires SubsequenceOf(a, b)
    ensures SubsequenceOf(a, b + [x])
    decreases |b|, 1
  {
    assert (b + [x])[..|b|] == b;
    if a != [] && a[|a| - 1] == x {
      SubsequenceDropLast(a, b);
    }
  }

  lemma {:induction false} SubsequenceDropLast<T>(a: seq<T>, b: seq<T>)
    requires a != [] && SubsequenceOf(a, b)
    ensures SubsequenceOf(a[..|a| - 1], b)
    decreases |b|, 0
  {
    if b != [] {
      assert b[..|b| - 1] + [b[|b| - 1]] == b;
      if a[|a| - 1] != b[|b| - 1] {
        SubsequenceDropLast(a, b[..|b| - 1]);
      }
      SubsequenceExtend(a[..|a| - 1], b[..|b| - 1], b[|b| - 1]);
    }
  }

  /** A name is kept exactly when it was listed and passes the scan's test. */
  lemma {:induction false} FilterMembership(files: seq<string>, extensions: string, name: string)
    ensures name in FilterNames(files, extensions) <==> name in files && Keeps(extensions, name)
  {
    if files != [] {
      var init := files[..|files| - 1];
      FilterMembership(init, extensions, name);
      assert files == init + [files[|files| - 1]];
    }
  }

  /** A name without an extension is never kept. */
  lemma NoExtensionNeverKept(files: seq<string>, extensions: string, name: string)
    requires Extension(name).None?
    ensures name !in FilterNames(files, extensions)
  {
    FilterMembership(files, extensions, name);
  }

  /** With an empty filter text only names whose extension is empty (`"a."`) are kept. */
  lemma EmptyFilterKeepsOnlyEmptyExtensions(files: seq<string>, name: string)
    requires name in FilterNames(files, "")
    ensures Extension(name) == Some("")
  {
    FilterMembership(files, "", name);
    var ext := Extension(name).value;
    assert OccursAt("", ext, 0);
  }

  /** The one-entry allow-list `"sqf"` is the extension `sqf` once trimmed and lower-cased. */
  lemma SqfListNormalized()
    ensures Split("sqf", ',') == ["sqf"]
    ensures ExtensionFilter.Normalize("sqf") == "sqf"
  {
    SplitNoSep("sqf", ',');
    SqfTrimmed();
    assert Lower("f") == "f";
    assert Lower("qf") == [LowerChar('q')] + Lower("f");
    assert Lower("sqf") == [LowerChar('s')] + Lower("qf");
  }

  lemma SqfTrimmed()
    ensures Trim("sqf") == "sqf"
  {
    TrimPadded("", "sqf", "");
    assert "" + "sqf" + "" == "sqf";
  }

  /** A fragment of an allowed extension passes the scan's test but not the allow-list of `matches_extension`. */
  lemma FragmentPassesScanOnly()
    ensures Keeps("sqf", "x.q")
    ensures !ExtensionFilter.MatchesExtension("x.q", "sqf")
  {
    ExtensionOfName("x", "q");
    assert "x" + "." + "q" == "x.q";
    assert OccursAt("sqf", "q", 1);
    SqfListNormalized();
    assert Lower("q") == "q";
  }

  /** An allowed extension written in upper case passes the allow-list but not the scan's test. */
  lemma UpperCasePassesAllowListOnly()
    ensures !Keeps("sqf", "x.SQF")
    ensures ExtensionFilter.MatchesExtension("x.SQF", "sqf")
  {
    ExtensionOfName("x", "SQF");
    assert "x" + "." + "SQF" == "x.SQF";
    assert !OccursAt("sqf", "SQF", 0);
    SqfListNormalized();
    assert Lower("SQF") == "sqf";
    assert ExtensionFilter.Normalize(Split("sqf", ',')[0]) == Lower("SQF");
  }

  /** An empty filter keeps nothing with a non-empty extension in the scan, and everything in the allow-list. */
  lemma EmptyFilterDiffers()
    ensures !Keeps("", "x.sqf")
    ensures ExtensionFilter.MatchesExtension("x.sqf", "")
  {
    ExtensionOfName("x", "sqf");
    assert "x" + "." + "sqf" == "x.sqf";
  }

  /**
    `scan_pbo_contents`: list the archive with the listing options; if the
    listing fails, fail; otherwise go through the names in order and keep
    those that pass the scan's test.
   */
  method ScanPboContents(tools: Tools, path: FsPath, extensions: string) returns (r: Result<PboScanResult, ScanError>)
    ensures r.Err? <==> tools.listWithOptions(path, ListingOptions()).None?
    ensures r.Ok? ==> r.value.path == path
    ensures r.Ok? ==> r.value.expectedFiles == FilterNames(tools.listWithOptions(path, ListingOptions()).value.fileList, extensions)
  {
    var listed := tools.listWithOptions(path, ListingOptions());
    if listed.None? {
      return Err(ListingFailed);
    }
    var files := listed.value.fileList;
    var matching: seq<string> := [];
    for i := 0 to |files|
      invariant matching == FilterNames(files[..i], extensions)
    {
      assert files[..i + 1][..i] == files[..i];
      if Keeps(extensions, files[i]) {
        matching := matching + [files[i]];
      }
    }
    assert files[..|files|] == files;
    return Ok(PboScanResult(path, matching));
  }
}
