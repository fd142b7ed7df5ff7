/**
  The extension allow-list of `utils/mod.rs`: a path matches a
  comma-separated list of extensions when its extension equals one of the
  entries, each entry trimmed, both sides compared case-insensitively; an
  empty list matches every path.
 */
module ExtensionFilter {
  import opened Results
  import opened Text
  import opened Paths

  /** One entry of the list as it is compared: trimmed, then lower-cased. */
  function Normalize(entry: string): string {
    Lower(Trim(entry))
  }

  /** Some piece of `pieces`, normalized, equals `ext`. */
  predicate AnyEntryIs(pieces: seq<string>, ext: string) {
    exists i :: 0 <= i < |pieces| && Normalize(pieces[i]) == ext
  }

  /** `matches_extension(path, extensions)`. */
  function MatchesExtension(path: string, extensions: string): (r: bool)
    ensures extensions == "" ==> r
    ensures extensions != "" && Extension(path).None? ==> !r
  {
    if extensions == "" then true
    else match Extension(path)
      case None => false
      case Some(ext) => AnyEntryIs(Split(extensions, ','), Lower(ext))
  }

  /**
    For a non-empty list written as comma-free entries joined by commas, a path
    matches exactly when it has an extension equal, ignoring case and the
    whitespace around the entry, to one of the entries.
   */
  lemma MatchesIffListed(path: string, entries: seq<string>)
    requires |entries| >= 1
    requires forall i :: 0 <= i < |entries| ==> ',' !in entries[i]
    requires Join(entries, ',') != ""
    ensures MatchesExtension(path, Join(entries, ',')) <==>
      Extension(path).Some? && exists i :: 0 <= i < |entries| && Normalize(entries[i]) == Lower(Extension(path).value)
  {
    SplitJoin(entries, ',');
  }

  /** An entry padded with whitespace still matches the extension it surrounds (`" txt , cpp "` matches `.txt`). */
  lemma PaddedEntryMatches(path: string, entries: seq<string>, i: nat, pre: string, post: string)
    requires |entries| >= 1 && i < |entries|
    requires forall j :: 0 <= j < |entries| ==> ',' !in entries[j]
    requires Extension(path).Some?
    requires AllWhitespace(pre) && AllWhitespace(post)
    requires entries[i] == pre + Extension(path).value + post
    requires Extension(path).value != []
    requires !IsWhitespace(Extension(path).value[0]) && !IsWhitespace(Extension(path).value[|Extension(path).value| - 1])
    ensures MatchesExtension(path, Join(entries, ','))
  {
    var ext := Extension(path).value;
    TrimPadded(pre, ext, post);
    assert Normalize(entries[i]) == Lower(ext);
    JoinNonEmpty(entries, i);
    MatchesIffListed(path, entries);
  }

  lemma {:induction false} JoinNonEmpty(parts: seq<string>, i: nat)
    requires i < |parts| && parts[i] != []
    ensures Join(parts, ',') != []
  {
    if |parts| > 1 && i > 0 {
      JoinNonEmpty(parts[1..], i - 1);
    }
  }

  /** Upper-casing the list does not change the verdict: the list side is compared in lower case. */
  lemma ListCaseIgnored(path: string, extensions: string)
    ensures MatchesExtension(path, Lower(extensions)) == MatchesExtension(path, extensions)
  {
    if extensions != "" {
      assert Lower(extensions) != "";
      var pieces := Split(extensions, ',');
      SplitLower(extensions, ',');
      forall i | 0 <= i < |pieces| ensures Normalize(Lower(pieces[i])) == Normalize(pieces[i]) {
        TrimLower(pieces[i]);
        LowerIdempotent(Trim(pieces[i]));
      }
    }
  }

  /** Upper-casing the path does not change the verdict: the extension is compared in lower case. */
  lemma PathCaseIgnored(path: string, extensions: string)
    ensures MatchesExtension(Lower(path), extensions) == MatchesExtension(path, extensions)
  {
    ExtensionLower(path);
    if Extension(path).Some? {
      LowerIdempotent(Extension(path).value);
    }
  }

  // ---------------------------------------------------------------------
  // Lower-casing commutes with the structure the filter looks at.

  function LowerAll(ss: seq<string>): (r: seq<string>)
    ensures |r| == |ss| && forall i :: 0 <= i < |ss| ==> r[i] == Lower(ss[i])
  {
    if ss == [] then [] else [Lower(ss[0])] + LowerAll(ss[1..])
  }

  lemma LowerIdempotent(s: string)
    ensures Lower(Lower(s)) == Lower(s)
  {
  }

  /** A character `d` that is not a letter is the lower-case image of exactly one character: `d` itself. */
  lemma LowerCharIsNonLetter(c: char, d: char)
    requires !('A' <= d <= 'Z') && !('a' <= d <= 'z')
    ensures LowerChar(c) == d <==> c == d
  {
  }

  lemma WhitespaceLower(c: char)
    ensures IsWhitespace(LowerChar(c)) == IsWhitespace(c)
  {
  }

  lemma {:induction false} SplitLower(s: string, sep: char)
    requires !('A' <= sep <= 'Z') && !('a' <= sep <= 'z')
    ensures Split(Lower(s), sep) == LowerAll(Split(s, sep))
  {
    if s != [] {
      SplitLower(s[1..], sep);
      assert Lower(s)[1..] == Lower(s[1..]);
      LowerCharIsNonLetter(s[0], sep);
    }
  }

  lemma {:induction false} TrimStartLower(s: string)
    ensures TrimStart(Lower(s)) == Lower(TrimStart(s))
  {
    if s != [] {
      WhitespaceLower(s[0]);
      assert Lower(s)[1..] == Lower(s[1..]);
      TrimStartLower(s[1..]);
    }
  }

  lemma {:induction false} TrimEndLower(s: string)
    ensures TrimEnd(Lower(s)) == Lower(TrimEnd(s))
  {
    if s != [] {
      WhitespaceLower(s[|s| - 1]);
      assert Lower(s)[..|s| - 1] == Lower(s[..|s| - 1]);
      TrimEndLower(s[..|s| - 1]);
    }
  }

  lemma TrimLower(s: string)
    ensures Trim(Lower(s)) == Lower(Trim(s))
  {
    TrimStartLower(s);
    TrimEndLower(TrimStart(s));
  }

  lemma LowerIsNonLetterWord(s: string, w: string)
    requires forall k :: 0 <= k < |w| ==> !('A' <= w[k] <= 'Z') && !('a' <= w[k] <= 'z')
    ensures Lower(s) == w <==> s == w
  {
    if |s| == |w| {
      forall k | 0 <= k < |w| ensures LowerChar(s[k]) == w[k] <==> s[k] == w[k] {
        LowerCharIsNonLetter(s[k], w[k]);
      }
    }
  }

  lemma {:induction false} PartsLower(pieces: seq<string>)
    requires forall i :: 0 <= i < |pieces| ==> '/' !in pieces[i]
    ensures forall i :: 0 <= i < |pieces| ==> '/' !in Lower(pieces[i])
    ensures Parts(LowerAll(pieces)) == LowerAll(Parts(pieces))
  {
    forall i, k | 0 <= i < |pieces| && 0 <= k < |pieces[i]| ensures Lower(pieces[i])[k] != '/' {
      LowerCharIsNonLetter(pieces[i][k], '/');
    }
    if pieces != [] {
      LowerIsNonLetterWord(pieces[0], ".");
      assert LowerAll(pieces)[1..] == LowerAll(pieces[1..]);
      PartsLower(pieces[1..]);
    }
  }

  lemma {:induction false} LastDotLower(s: string)
    ensures LastDot(Lower(s)) == LastDot(s)
  {
    if s != [] {
      LowerCharIsNonLetter(s[|s| - 1], '.');
      assert Lower(s)[..|s| - 1] == Lower(s[..|s| - 1]);
      LastDotLower(s[..|s| - 1]);
    }
  }

  lemma FileNameLower(path: string)
    ensures FileName(Lower(path)) == (if FileName(path).Some? then Some(Lower(FileName(path).value)) else None)
  {
    SplitLower(path, '/');
    PartsLower(Split(path, '/'));
    var c := Components(path);
    assert Components(Lower(path)) == LowerAll(c);
    if c != [] {
      LowerIsNonLetterWord(c[|c| - 1], "..");
    }
  }

  lemma NameExtensionLower(name: string)
    ensures NameExtension(Lower(name)) == (if NameExtension(name).Some? then Some(Lower(NameExtension(name).value)) else None)
  {
    LowerIsNonLetterWord(name, "..");
    LastDotLower(name);
    var low := Lower(name);
    if name != ".." && LastDot(name).Some? && LastDot(name).value != 0 {
      var i := LastDot(name).value;
      assert NameExtension(low) == Some(low[i + 1..]);
      LowerSuffix(name, i + 1);
    }
  }

  lemma LowerSuffix(s: string, k: nat)
    requires k <= |s|
    ensures Lower(s)[k..] == Lower(s[k..])
  {
  }

  /** The extension of the lower-cased path is the lower-cased extension. */
  lemma ExtensionLower(path: string)
    ensures Extension(Lower(path)) == (if Extension(path).Some? then Some(Lower(Extension(path).value)) else None)
  {
    FileNameLower(path);
    if FileName(path).Some? {
      NameExtensionLower(FileName(path).value);
    }
  }
}
