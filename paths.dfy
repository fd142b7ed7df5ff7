/**
  The parts of Rust's `std::path` that the extraction core relies on, for
  Unix paths: `Path::file_name`, `Path::extension` and `Path::file_stem` on a
  path given as text, and `strip_prefix`, `join` and `with_extension("")` on
  a path given as its list of components.
 */
module Paths {
  import opened Results
  import opened Text

  /** A component that names a file or directory (Rust's `Component::Normal` or `..`). */
  predicate IsPart(p: string) {
    p != [] && p != "." && '/' !in p
  }

  /**
    The components of `/`-separated text: empty pieces and `.` are dropped.
    Rust's `Path::components` does the same except for a leading `.`, which it
    keeps as `CurDir`; the paths this model handles never start with one.
  */
  function Parts(pieces: seq<string>): (r: seq<string>)
    requires forall i :: 0 <= i < |pieces| ==> '/' !in pieces[i]
    ensures |r| <= |pieces|
    ensures forall i :: 0 <= i < |r| ==> IsPart(r[i])
  {
    if pieces == [] then []
    else if pieces[0] == [] || pieces[0] == "." then Parts(pieces[1..])
    else [pieces[0]] + Parts(pieces[1..])
  }

  lemma {:induction false} PartsAppend(a: seq<string>, b: seq<string>)
    requires forall i :: 0 <= i < |a| ==> '/' !in a[i]
    requires forall i :: 0 <= i < |b| ==> '/' !in b[i]
    ensures Parts(a + b) == Parts(a) + Parts(b)
  {
    if a != [] {
      assert (a + b)[1..] == a[1..] + b;
      PartsAppend(a[1..], b);
    } else {
      assert a + b == b;
    }
  }

  function Components(s: string): (r: seq<string>)
    ensures forall i :: 0 <= i < |r| ==> IsPart(r[i])
  {
    Parts(Split(s, '/'))
  }

  /** Rust's `Path::file_name`: the last component, unless it is `..` or there is none. */
  function FileName(s: string): (r: Option<string>)
    ensures r.Some? ==> IsPart(r.value) && r.value != ".."
  {
    var c := Components(s);
    if c == [] || c[|c| - 1] == ".." then None else Some(c[|c| - 1])
  }

  /** Index of the last `.` in `s`, if any. */
  function LastDot(s: string): (r: Option<nat>)
    ensures r.Some? ==> r.value < |s| && s[r.value] == '.' && '.' !in s[r.value + 1..]
    ensures r.None? ==> '.' !in s
  {
    if s == [] then None
    else if s[|s| - 1] == '.' then Some(|s| - 1)
    else
      var init := s[..|s| - 1];
      var r := LastDot(init);
      if r.Some? then
        assert s[r.value + 1..] == init[r.value + 1..] + [s[|s| - 1]];
        r
      else
        assert s == init + [s[|s| - 1]];
        r
  }

  /**
    Rust's `rsplit_file_at_dot` as used by `extension`: the text after the last
    dot, unless there is no dot, the only dot starts the name (`.bashrc`), or
    the name is `..`. `NameIsStemDotExtension`, `StemDotExtension` and
    `NoDotNoExtension` state this in full.
   */
  function NameExtension(name: string): (r: Option<string>)
    ensures r.Some? ==> '.' !in r.value
  {
    if name == ".." then None
    else match LastDot(name)
      case None => None
      case Some(i) => if i == 0 then None else Some(name[i + 1..])
  }

  /** Rust's `file_stem` of a name: the name without the extension that `NameExtension` finds. */
  function Stem(name: string): (r: string)
    ensures |r| <= |name|
  {
    if name == ".." then name
    else match LastDot(name)
      case None => name
      case Some(i) => if i == 0 then name else name[..i]
  }

  /** A name with an extension is its stem, a dot and the extension; the stem is never empty. */
  lemma NameIsStemDotExtension(name: string)
    requires NameExtension(name).Some?
    ensures Stem(name) != [] && name == Stem(name) + "." + NameExtension(name).value
  {
    var i := LastDot(name).value;
    assert name == name[..i] + [name[i]] + name[i + 1..];
  }

  /** Conversely, a stem, a dot and a dot-free extension give back that extension and stem. */
  lemma {:induction false} StemDotExtension(stem: string, ext: string)
    requires stem != [] && '.' !in ext
    requires stem + "." + ext != ".."
    ensures NameExtension(stem + "." + ext) == Some(ext)
    ensures Stem(stem + "." + ext) == stem
  {
    var name := stem + "." + ext;
    LastDotOfSuffix(stem, ext);
  }

  lemma {:induction false} LastDotOfSuffix(stem: string, ext: string)
    requires '.' !in ext
    ensures LastDot(stem + "." + ext) == Some(|stem|)
  {
    var name := stem + "." + ext;
    if ext == [] {
      assert name[|name| - 1] == '.';
    } else {
      assert name[..|name| - 1] == stem + "." + ext[..|ext| - 1];
      assert ext[|ext| - 1] in ext;
      LastDotOfSuffix(stem, ext[..|ext| - 1]);
    }
  }

  /**
    Rust's `Path::extension` on a path given as text: `NameExtension` of the
    file name. `ExtensionOfFileInDir` and `ExtensionOfName` give its value.
   */
  function Extension(path: string): (r: Option<string>)
    ensures r.Some? ==> '.' !in r.value && '/' !in r.value
  {
    match FileName(path)
    case None => None
    case Some(name) =>
      var r := NameExtension(name);
      assert r.Some? ==> r.value == name[LastDot(name).value + 1..];
      r
  }

  /** The extension is read from the last component only, whatever directory precedes it. */
  lemma ExtensionOfFileInDir(dir: string, stem: string, ext: string)
    requires IsPart(stem) && '.' !in ext && '/' !in ext
    requires stem + "." + ext != ".."
    ensures Extension(dir + "/" + stem + "." + ext) == Some(ext)
  {
    var name := stem + "." + ext;
    NoSeparatorInName(stem, ext);
    assert dir + "/" + stem + "." + ext == dir + "/" + name;
    FileNameInDir(dir, name);
    StemDotExtension(stem, ext);
  }

  /** The file name of a path ending in a separator and a name is that name. */
  lemma FileNameInDir(dir: string, name: string)
    requires IsPart(name) && name != ".."
    ensures FileName(dir + "/" + name) == Some(name)
  {
    assert dir + "/" + name == dir + ['/'] + name;
    SplitConcat(dir, name, '/');
    SplitNoSep(name, '/');
    PartsAppend(Split(dir, '/'), [name]);
    assert Components(dir + "/" + name) == Parts(Split(dir, '/')) + [name];
  }

  lemma NoSeparatorInName(stem: string, ext: string)
    requires IsPart(stem) && '/' !in ext
    ensures '/' !in stem + "." + ext
  {
    var name := stem + "." + ext;
    forall k | 0 <= k < |name| ensures name[k] != '/' {
      if k < |stem| { assert name[k] == stem[k]; }
      else if k > |stem| { assert name[k] == ext[k - |stem| - 1]; }
    }
  }

  /** A bare file name's extension is the text after its last dot. */
  lemma ExtensionOfName(stem: string, ext: string)
    requires IsPart(stem) && '.' !in ext && '/' !in ext
    requires stem + "." + ext != ".."
    ensures Extension(stem + "." + ext) == Some(ext)
  {
    var name := stem + "." + ext;
    NoSeparatorInName(stem, ext);
    SplitNoSep(name, '/');
    StemDotExtension(stem, ext);
  }

  /** A component with no dot has no extension. */
  lemma NoDotNoExtension(name: string)
    requires IsPart(name) && '.' !in name
    ensures Extension(name) == None
  {
    SplitNoSep(name, '/');
  }

  /** Splitting around one separator splits the two sides independently. */
  lemma {:induction false} SplitConcat(a: string, b: string, sep: char)
    ensures Split(a + [sep] + b, sep) == Split(a, sep) + Split(b, sep)
  {
    if a == [] {
      assert [] + [sep] + b == [sep] + b;
      assert ([sep] + b)[1..] == b;
    } else {
      assert (a + [sep] + b)[1..] == a[1..] + [sep] + b;
      SplitConcat(a[1..], b, sep);
    }
  }

  /**
    A path as its list of components, as `PathBuf` holds it; `absolute` says
    whether it starts at the root.
   */
  datatype FsPath = FsPath(absolute: bool, parts: seq<string>)

  /** `Path::new(s)`: text read as a path. */
  function ParsePath(s: string): (r: FsPath)
    ensures forall i :: 0 <= i < |r.parts| ==> IsPart(r.parts[i])
  {
    FsPath(|s| > 0 && s[0] == '/', Components(s))
  }

  /**
    The components the file system arrives at: each `..` cancels the
    component before it; a `..` with nothing left to cancel is kept.
    `Path::join` itself never does this.
   */
  function Resolve(parts: seq<string>): (r: seq<string>)
    ensures |r| <= |parts|
  {
    if parts == [] then []
    else
      var r := Resolve(parts[..|parts| - 1]);
      var last := parts[|parts| - 1];
      if last == ".." && r != [] && r[|r| - 1] != ".." then r[..|r| - 1] else r + [last]
  }

  /** Components without `..` resolve to themselves. */
  lemma {:induction false} ResolveWithoutDotDot(parts: seq<string>)
    requires ".." !in parts
    ensures Resolve(parts) == parts
  {
    if parts != [] {
      var init := parts[..|parts| - 1];
      assert init + [parts[|parts| - 1]] == parts;
      ResolveWithoutDotDot(init);
    }
  }

  /** `base.join(p)`: an absolute `p` replaces `base`, a relative one is appended. */
  function JoinPath(base: FsPath, p: FsPath): (r: FsPath)
  {
    if p.absolute then p else FsPath(base.absolute, base.parts + p.parts)
  }

  /** `p.strip_prefix(base)`: the rest of `p` after the components of `base`, or an error when `base` is not a prefix. */
  function StripPrefix(p: FsPath, base: FsPath): (r: Option<FsPath>)
    ensures r.Some? <==> p.absolute == base.absolute && |base.parts| <= |p.parts| && p.parts[..|base.parts|] == base.parts
    ensures r.Some? ==> !r.value.absolute && JoinPath(base, r.value) == p
  {
    if p.absolute == base.absolute && |base.parts| <= |p.parts| && p.parts[..|base.parts|] == base.parts then
      assert base.parts + p.parts[|base.parts|..] == p.parts;
      Some(FsPath(false, p.parts[|base.parts|..]))
    else None
  }

  /** Stripping `base` from `base` joined with a relative path gives that path back. */
  lemma StripPrefixOfJoin(base: FsPath, rel: FsPath)
    requires !rel.absolute
    ensures StripPrefix(JoinPath(base, rel), base) == Some(rel)
  {
    var p := JoinPath(base, rel);
    assert p.parts[..|base.parts|] == base.parts;
    assert p.parts[|base.parts|..] == rel.parts;
  }

  /**
    `p.with_extension("")`: the last component replaced by its stem; a path
    without a file name is unchanged. `Stem` is characterized by
    `NameIsStemDotExtension` and `StemDotExtension`.
   */
  function WithoutExtension(p: FsPath): (r: FsPath)
    ensures r.absolute == p.absolute && |r.parts| == |p.parts|
    ensures forall i :: 0 <= i < |p.parts| - 1 ==> r.parts[i] == p.parts[i]
  {
    var n := |p.parts|;
    if n == 0 || p.parts[n - 1] == ".." then p
    else FsPath(p.absolute, p.parts[..n - 1] + [Stem(p.parts[n - 1])])
  }
}
