/** How the code index turns an import into the path of an indexed file. Paths follow POSIX `pathlib`. */
module ModuleResolution {
  import opened Options
  import opened Sequences
  import opened Text

  // -------------------------------------------------------------- strings and paths

  /** The characters Python's `str.strip` removes. */
  predicate IsPySpace(c: char) {
    || '\t' <= c <= '\r' || '\U{1C}' <= c <= ' ' || c == '\U{85}' || c == '\U{A0}' || c == '\U{1680}'
    || '\U{2000}' <= c <= '\U{200A}' || c == '\U{2028}' || c == '\U{2029}' || c == '\U{202F}' || c == '\U{205F}'
    || c == '\U{3000}'
  }

  function LeftStrip(s: string): string {
    if s != [] && IsPySpace(s[0]) then LeftStrip(s[1..]) else s
  }

  function RightStrip(s: string): string {
    if s != [] && IsPySpace(s[|s| - 1]) then RightStrip(s[..|s| - 1]) else s
  }

  function Strip(s: string): string {
    RightStrip(LeftStrip(s))
  }

  function StripDots(s: string): (r: string)
    ensures r == [] || r[0] != '.'
  {
    if s != [] && s[0] == '.' then StripDots(s[1..]) else s
  }

  /** `replace(".", "/")`. */
  function Slashed(s: string): (r: string)
    ensures |r| == |s| && '.' !in r
    ensures forall i | 0 <= i < |s| :: r[i] == if s[i] == '.' then '/' else s[i]
  {
    if s == [] then [] else [if s[0] == '.' then '/' else s[0]] + Slashed(s[1..])
  }

  /** A parsed path: its root (empty, one slash or exactly two) and its parts. */
  datatype Path = Path(root: string, parts: seq<string>)

  function Parts(segments: seq<string>): seq<string> {
    if segments == [] then []
    else if segments[0] == "" || segments[0] == "." then Parts(segments[1..])
    else [segments[0]] + Parts(segments[1..])
  }

  function PathOf(s: string): Path {
    var root := if StartsWith(s, "//") && !StartsWith(s, "///") then "//" else if StartsWith(s, "/") then "/" else "";
    Path(root, Parts(Split(s, '/')))
  }

  function AsPosix(p: Path): string {
    if p.root == "" && p.parts == [] then "." else p.root + Join(p.parts, "/")
  }

  function Parent(p: Path): Path {
    if p.parts == [] then p else p.(parts := p.parts[..|p.parts| - 1])
  }

  /** `p / q`: an absolute right-hand side wins. */
  function Slash(p: Path, q: Path): Path {
    if q.root != "" then q else Path(p.root, p.parts + q.parts)
  }

  function LastDot(name: string): (r: int)
    ensures -1 <= r < |name|
  {
    if name == [] then -1
    else if name[|name| - 1] == '.' then |name| - 1
    else LastDot(name[..|name| - 1])
  }

  predicate HasSuffix(p: Path) {
    p.parts != [] &&
    var name := p.parts[|p.parts| - 1];
    0 < LastDot(name) < |name| - 1
  }

  // ------------------------------------------------------------------- resolution

  /** The import as a path: next to the source when it starts with a dot, else from the project root. */
  function Normalized(source: string, target: string): string {
    var t := Strip(target);
    if StartsWith(t, ".") then AsPosix(Slash(Parent(PathOf(source)), PathOf(Slashed(StripDots(t)))))
    else Slashed(t)
  }

  function Candidates(normalized: string): seq<string> {
    if HasSuffix(PathOf(normalized)) then [normalized]
    else [normalized, normalized + ".py", normalized + ".ts", normalized + ".tsx", normalized + ".js",
          normalized + ".jsx", normalized + "/__init__.py"]
  }

  function FirstKnown(candidates: seq<string>, known: set<string>): (r: Option<string>)
    ensures r.Some? ==> r.value in candidates && r.value in known
    ensures r.None? ==> forall c | c in candidates :: c !in known
  {
    if candidates == [] then None
    else if candidates[0] in known then Some(candidates[0])
    else FirstKnown(candidates[1..], known)
  }

  /** What the index finds for an import, if anything. */
  function Lookup(known: set<string>, source: string, target: string): Option<string> {
    FirstKnown(Candidates(Normalized(source, target)), known)
  }

  /** An indexed path, or the import as written. */
  function Resolve(known: set<string>, source: string, target: string): (r: string)
    ensures r in known || r == target
  {
    var found := Lookup(known, source, target);
    if found.Some? then found.value else target
  }

  // ------------------------------------------------------------ which candidate wins

  /** The candidate at `i` is known and none before it is. */
  predicate Wins(candidates: seq<string>, known: set<string>, i: int) {
    0 <= i < |candidates| && candidates[i] in known && forall j | 0 <= j < i :: candidates[j] !in known
  }

  lemma {:induction false} FirstKnownWins(candidates: seq<string>, known: set<string>, i: int)
    requires Wins(candidates, known, i)
    ensures FirstKnown(candidates, known) == Some(candidates[i])
  {
    if i > 0 {
      var rest := candidates[1..];
      assert forall j | 0 <= j < |rest| :: rest[j] == candidates[j + 1];
      FirstKnownWins(rest, known, i - 1);
    }
  }

  lemma {:induction false} SomeCandidateWins(candidates: seq<string>, known: set<string>) returns (i: int)
    requires FirstKnown(candidates, known).Some?
    ensures Wins(candidates, known, i)
  {
    if candidates[0] in known {
      i := 0;
    } else {
      var rest := candidates[1..];
      assert forall j | 0 <= j < |rest| :: rest[j] == candidates[j + 1];
      var k := SomeCandidateWins(rest, known);
      i := k + 1;
    }
  }

  /** An import resolves to the first of its candidates that is indexed, and stays as written exactly if none is. */
  lemma ResolvesToTheFirstKnown(known: set<string>, source: string, target: string)
    ensures var candidates := Candidates(Normalized(source, target));
      if exists i :: Wins(candidates, known, i)
      then exists i :: Wins(candidates, known, i) && Resolve(known, source, target) == candidates[i]
      else Resolve(known, source, target) == target && forall c | c in candidates :: c !in known
  {
    hide Candidates, Normalized, FirstKnown;
    var candidates := Candidates(Normalized(source, target));
    if i :| Wins(candidates, known, i) {
      FirstKnownWins(candidates, known, i);
    } else if Lookup(known, source, target).Some? {
      var i := SomeCandidateWins(candidates, known);
      assert false;
    }
  }

  // ------------------------------------------------------------ what resolves, and what does not

  lemma StripDotsOnce(s: string)
    ensures StripDots("." + s) == StripDots(s)
  {
    assert ("." + s)[1..] == s;
  }

  /** The number of leading dots does not count: `..m` is looked up in the same directory as `.m`. */
  lemma DotLevelsAreIgnored(source: string, t: string)
    requires Strip("." + t) == "." + t && Strip(".." + t) == ".." + t
    ensures Normalized(source, "." + t) == Normalized(source, ".." + t)
  {
    assert ".." + t == "." + ("." + t);
    StripDotsOnce("." + t);
    StripDotsOnce(t);
    assert ("." + t)[..1] == "." && (".." + t)[..1] == ".";
  }

  predicate Relative(known: set<string>) {
    forall p | p in known :: !StartsWith(p, "/")
  }

  /** The import specifiers of script files: `./x`, `../x`. */
  predicate IsScriptRelative(t: string) {
    StartsWith(t, "./") || StartsWith(t, "../")
  }

  /**
   * A script's relative import never resolves: stripping its dots leaves an absolute path, and no
   * indexed path is absolute.
   */
  lemma ScriptRelativeImportsNeverResolve(known: set<string>, source: string, target: string)
    requires Relative(known) && IsScriptRelative(Strip(target))
    ensures Resolve(known, source, target) == target
  {
    hide Normalized, Candidates, FirstKnown, Strip;
    var n := Normalized(source, target);
    ScriptRelativeIsAbsolute(source, target);
    forall c | c in Candidates(n)
      ensures c !in known
    {
      CandidatesStartAlike(n, c);
      assert c[..1] == "/";
    }
  }

  lemma ScriptRelativeIsAbsolute(source: string, target: string)
    requires IsScriptRelative(Strip(target))
    ensures Normalized(source, target) != [] && Normalized(source, target)[0] == '/'
  {
    var t := Strip(target);
    SlashAfterDots(t);
    hide Strip, Slashed, StripDots, Parent, Split, Parts, Join, HasSuffix;
    var q := PathOf(Slashed(StripDots(t)));
    assert q.root == "/" || q.root == "//";
    assert Normalized(source, target) == AsPosix(q);
  }

  lemma CandidatesStartAlike(path: string, c: string)
    requires path != [] && c in Candidates(path)
    ensures c != [] && c[0] == path[0]
  {
  }

  lemma SlashAfterDots(t: string)
    requires IsScriptRelative(t)
    ensures StartsWith(t, ".") && StartsWith(Slashed(StripDots(t)), "/")
  {
    var k := if StartsWith(t, "./") then 1 else 2;
    assert t[..k + 1][k] == t[k] == '/' && t[..k + 1][0] == t[0] == '.';
    assert k == 2 ==> t[..3][1] == t[1] == '.';
    assert t[1..][0] == t[1] && t[1..][1..] == t[2..];
    assert StripDots(t[k..]) == t[k..];
    assert StripDots(t) == t[k..];
  }

  predicate PlainName(s: string) {
    s != [] && forall i | 0 <= i < |s| :: s[i] != '.' && s[i] != '/' && !IsPySpace(s[i])
  }

  lemma {:induction false} SlashedJoin(names: seq<string>)
    requires forall i | 0 <= i < |names| :: PlainName(names[i])
    ensures Slashed(Join(names, ".")) == Join(names, "/")
  {
    if |names| == 1 {
      SlashedPlain(names[0]);
    } else if |names| > 1 {
      SlashedPlain(names[0]);
      SlashedJoin(names[1..]);
      SlashedAppend(names[0] + ".", Join(names[1..], "."));
      SlashedAppend(names[0], ".");
      assert Slashed(".") == "/";
    }
  }

  lemma SlashedPlain(s: string)
    requires '.' !in s
    ensures Slashed(s) == s
  {
  }

  lemma {:induction false} SlashedAppend(a: string, b: string)
    ensures Slashed(a + b) == Slashed(a) + Slashed(b)
  {
    if a == [] {
      assert a + b == b;
    } else {
      Uncons(a, b);
      SlashedAppend(a[1..], b);
      Assoc([if a[0] == '.' then '/' else a[0]], Slashed(a[1..]), Slashed(b));
    }
  }

  predicate HasPlainEnds(s: string) {
    s != [] && s[0] != '.' && !IsPySpace(s[0]) && !IsPySpace(s[|s| - 1])
  }

  lemma {:induction false} JoinHasPlainEnds(names: seq<string>, sep: string)
    requires names != [] && forall i | 0 <= i < |names| :: PlainName(names[i])
    ensures HasPlainEnds(Join(names, sep))
  {
    assert PlainName(names[0]);
    if |names| > 1 {
      JoinHasPlainEnds(names[1..], sep);
    }
  }

  lemma StripPlain(s: string)
    requires HasPlainEnds(s)
    ensures Strip(s) == s
  {
  }

  lemma {:induction false} NoDotInJoin(names: seq<string>)
    requires forall i | 0 <= i < |names| :: PlainName(names[i])
    ensures '.' !in Join(names, "/")
  {
    if |names| > 1 {
      NoDotInJoin(names[1..]);
    }
  }

  lemma {:induction false} NoDotInParts(segments: seq<string>)
    requires forall i | 0 <= i < |segments| :: '.' !in segments[i]
    ensures forall i | 0 <= i < |Parts(segments)| :: '.' !in Parts(segments)[i]
  {
    if segments != [] {
      NoDotInParts(segments[1..]);
    }
  }

  lemma {:induction false} SplitKeepsOut(s: string, sep: char, c: char)
    requires c !in s
    ensures forall i | 0 <= i < |Split(s, sep)| :: c !in Split(s, sep)[i]
  {
    if s != [] {
      SplitKeepsOut(s[1..], sep, c);
    }
  }

  lemma {:induction false} NoDotNoSuffix(name: string)
    requires '.' !in name
    ensures LastDot(name) == -1
  {
    if name != [] {
      NoDotNoSuffix(name[..|name| - 1]);
    }
  }

  lemma NormalizedFromRoot(source: string, target: string)
    requires Strip(target) == target && HasPlainEnds(target)
    ensures Normalized(source, target) == Slashed(target)
  {
    hide PathOf, AsPosix, Slash, Parent, Strip, Slashed;
  }

  lemma NormalizedModule(source: string, names: seq<string>)
    requires names != [] && forall i | 0 <= i < |names| :: PlainName(names[i])
    ensures Normalized(source, Join(names, ".")) == Join(names, "/")
  {
    hide *;
    JoinHasPlainEnds(names, ".");
    StripPlain(Join(names, "."));
    NormalizedFromRoot(source, Join(names, "."));
    SlashedJoin(names);
  }

  lemma NoSuffixWithoutDots(path: string)
    requires '.' !in path
    ensures !HasSuffix(PathOf(path))
  {
    SplitKeepsOut(path, '/', '.');
    NoDotInParts(Split(path, '/'));
    var parts := PathOf(path).parts;
    if parts != [] {
      NoDotNoSuffix(parts[|parts| - 1]);
    }
  }

  lemma SecondCandidate(known: set<string>, path: string)
    requires !HasSuffix(PathOf(path)) && path !in known && path + ".py" in known
    ensures FirstKnown(Candidates(path), known) == Some(path + ".py")
  {
    hide PathOf, HasSuffix;
    var candidates := Candidates(path);
    assert candidates[0] == path && candidates[1..][0] == path + ".py";
  }

  /** An absolute Python import `a.b.c` finds the module file `a/b/c.py`. */
  lemma DottedModuleResolves(known: set<string>, source: string, names: seq<string>)
    requires names != [] && forall i | 0 <= i < |names| :: PlainName(names[i])
    requires Join(names, "/") !in known && Join(names, "/") + ".py" in known
    ensures Resolve(known, source, Join(names, ".")) == Join(names, "/") + ".py"
  {
    hide PathOf, HasSuffix, Normalized, Join, Candidates, FirstKnown;
    NormalizedModule(source, names);
    NoDotInJoin(names);
    NoSuffixWithoutDots(Join(names, "/"));
    SecondCandidate(known, Join(names, "/"));
  }

  lemma {:induction false} LeftStripBlank(blank: string, s: string)
    requires (forall i | 0 <= i < |blank| :: IsPySpace(blank[i])) && s != [] && !IsPySpace(s[0])
    ensures LeftStrip(blank + s) == s
  {
    if blank == [] {
      assert blank + s == s;
    } else {
      Uncons(blank, s);
      LeftStripBlank(blank[1..], s);
    }
  }

  lemma {:induction false} RightStripBlank(s: string, blank: string)
    requires (forall i | 0 <= i < |blank| :: IsPySpace(blank[i])) && s != [] && !IsPySpace(s[|s| - 1])
    ensures RightStrip(s + blank) == s
  {
    if blank == [] {
      assert s + blank == s;
    } else {
      var n := |blank| - 1;
      assert (s + blank)[..|s| + n] == s + blank[..n] && (s + blank)[|s| + n] == blank[n];
      RightStripBlank(s, blank[..n]);
    }
  }

  /** Blanks around an import do not change where it is looked for. */
  lemma BlanksAreIgnored(source: string, before: string, target: string, after: string)
    requires target != [] && !IsPySpace(target[0]) && !IsPySpace(target[|target| - 1])
    requires forall i | 0 <= i < |before| :: IsPySpace(before[i])
    requires forall i | 0 <= i < |after| :: IsPySpace(after[i])
    ensures Normalized(source, before + (target + after)) == Normalized(source, target)
  {
    LeftStripBlank(before, target + after);
    RightStripBlank(target, after);
    assert Strip(target) == target;
    hide Strip, PathOf, AsPosix, Slash, Parent, Slashed, StripDots;
  }

  /** The files an import of module path `path` may mean, in the order they are looked for. */
  function ModuleFiles(path: string): seq<string> {
    [path, path + ".py", path + ".ts", path + ".tsx", path + ".js", path + ".jsx", path + "/__init__.py"]
  }

  /**
   * An absolute Python import finds the first of these files that is indexed: the module in any of the five
   * languages, then the package; and stays as written exactly if none is.
   */
  lemma AbsoluteImportFindsModuleOrPackage(known: set<string>, source: string, names: seq<string>)
    requires names != [] && forall i | 0 <= i < |names| :: PlainName(names[i])
    ensures var target, files := Join(names, "."), ModuleFiles(Join(names, "/"));
      && (forall i | Wins(files, known, i) :: Resolve(known, source, target) == files[i])
      && ((forall i | 0 <= i < |files| :: files[i] !in known) <==> Lookup(known, source, target).None?)
      && (Lookup(known, source, target).None? ==> Resolve(known, source, target) == target)
  {
    hide PathOf, HasSuffix, Normalized, Join, FirstKnown;
    var target, path := Join(names, "."), Join(names, "/");
    NormalizedModule(source, names);
    NoDotInJoin(names);
    NoSuffixWithoutDots(path);
    var files := ModuleFiles(path);
    assert Candidates(path) == files;
    hide Candidates, ModuleFiles;
    forall i | Wins(files, known, i)
      ensures Resolve(known, source, target) == files[i]
    {
      FirstKnownWins(files, known, i);
    }
    if Lookup(known, source, target).Some? {
      var i := SomeCandidateWins(files, known);
      assert files[i] in known;
    }
  }

  // ---------------------------------------------------- relative Python imports

  function Dots(k: nat): string {
    if k == 0 then [] else "." + Dots(k - 1)
  }

  /** One part of a stored path. */
  predicate Segment(s: string) {
    s != "" && s != "." && '/' !in s
  }

  predicate Segments(parts: seq<string>) {
    forall i | 0 <= i < |parts| :: Segment(parts[i])
  }

  /** Some directories up; None when that leaves the project. */
  function Up(p: Path, levels: nat): Option<Path>
    decreases levels
  {
    if levels == 0 then Some(p)
    else if p.parts == [] then None
    else Up(Parent(p), levels - 1)
  }

  /**
   * Where Python looks: one dot is the source's own directory, every further dot one directory up. An import
   * that leaves the project names none of its files.
   */
  function Intended(source: string, dots: nat, names: seq<string>): Option<string>
    requires dots > 0
  {
    var directory := Up(Parent(PathOf(source)), dots - 1);
    if directory.None? then None else Some(AsPosix(Slash(directory.value, Path("", names))))
  }

  /** The indexed file an import with `dots` dots is meant to find. */
  function IntendedFile(known: set<string>, source: string, dots: nat, names: seq<string>): Option<string>
    requires dots > 0
  {
    var path := Intended(source, dots, names);
    if path.None? then None else FirstKnown(Candidates(path.value), known)
  }

  lemma {:induction false} StripDotsOf(k: nat, s: string)
    requires s == [] || s[0] != '.'
    ensures StripDots(Dots(k) + s) == s
  {
    if k == 0 {
      assert Dots(k) + s == s;
    } else {
      Assoc(".", Dots(k - 1), s);
      StripDotsOf(k - 1, s);
      Uncons(".", Dots(k - 1) + s);
    }
  }

  lemma {:induction false} DotsAreDots(k: nat)
    ensures |Dots(k)| == k && forall i | 0 <= i < k :: Dots(k)[i] == '.'
  {
    if k > 0 {
      DotsAreDots(k - 1);
    }
  }

  lemma PlainNamesAreSegments(names: seq<string>)
    requires forall i | 0 <= i < |names| :: PlainName(names[i])
    ensures Segments(names)
  {
    forall i | 0 <= i < |names|
      ensures Segment(names[i])
    {
      assert PlainName(names[i]) && names[i][0] != '.';
    }
  }

  lemma {:induction false} PartsOfSegments(parts: seq<string>)
    requires Segments(parts)
    ensures Parts(parts) == parts
  {
    if parts != [] {
      PartsOfSegments(parts[1..]);
    }
  }

  /** A joined path parses back into its parts. */
  lemma PathOfJoin(parts: seq<string>)
    requires Segments(parts)
    ensures PathOf(Join(parts, "/")) == Path("", parts)
  {
    if parts == [] {
      assert Split("", '/') == [""];
    } else {
      SplitJoin(parts, '/');
      PartsOfSegments(parts);
      assert Segment(parts[0]);
      assert Join(parts, "/")[0] == parts[0][0] != '/';
    }
  }

  lemma PathOfPosix(parts: seq<string>)
    requires Segments(parts)
    ensures PathOf(AsPosix(Path("", parts))) == Path("", parts)
  {
    if parts == [] {
      SplitNone(".", '/');
    } else {
      PathOfJoin(parts);
      assert "" + Join(parts, "/") == Join(parts, "/");
    }
  }

  lemma StripRelative(k: nat, names: seq<string>)
    requires k > 0 && forall i | 0 <= i < |names| :: PlainName(names[i])
    ensures var t := Dots(k) + Join(names, ".");
      Strip(t) == t && StartsWith(t, ".") && StripDots(t) == Join(names, ".")
  {
    var s := Join(names, ".");
    var t := Dots(k) + s;
    DotsAreDots(k);
    if names != [] {
      JoinHasPlainEnds(names, ".");
    }
    StripDotsOf(k, s);
    assert t[0] == '.' && t[..1] == ".";
    assert t[|t| - 1] == if s == [] then '.' else s[|s| - 1];
  }

  lemma DirectoryOf(dirs: seq<string>, file: string)
    requires Segments(dirs) && Segment(file)
    ensures Parent(PathOf(Join(dirs + [file], "/"))) == Path("", dirs)
  {
    PathOfJoin(dirs + [file]);
    hide PathOf, Join;
    assert (dirs + [file])[..|dirs|] == dirs;
  }

  /** What a relative import is looked up as: always next to its source, however many dots it has. */
  lemma RelativeImportIsLookedUpBesideItsSource(dirs: seq<string>, file: string, k: nat, names: seq<string>)
    requires k > 0 && Segments(dirs) && Segment(file) && forall i | 0 <= i < |names| :: PlainName(names[i])
    ensures Normalized(Join(dirs + [file], "/"), Dots(k) + Join(names, ".")) == AsPosix(Path("", dirs + names))
  {
    hide Strip, StripDots, Slashed, PathOf, Parent, Join, AsPosix, Dots;
    StripRelative(k, names);
    SlashedJoin(names);
    DirectoryOf(dirs, file);
    PlainNamesAreSegments(names);
    PathOfJoin(names);
  }

  lemma {:induction false} UpParts(parts: seq<string>, levels: nat)
    ensures Up(Path("", parts), levels)
         == if levels <= |parts| then Some(Path("", parts[..|parts| - levels])) else None
  {
    if levels == 0 {
      assert parts[..|parts|] == parts;
    } else if parts != [] {
      var upper := parts[..|parts| - 1];
      UpParts(upper, levels - 1);
      assert levels <= |parts| ==> upper[..|upper| - (levels - 1)] == parts[..|parts| - levels];
    }
  }

  lemma IntendedIs(dirs: seq<string>, file: string, k: nat, names: seq<string>)
    requires k > 0 && Segments(dirs) && Segment(file)
    ensures Intended(Join(dirs + [file], "/"), k, names)
         == if k - 1 <= |dirs| then Some(AsPosix(Path("", dirs[..|dirs| - (k - 1)] + names))) else None
  {
    hide PathOf, Parent, Join, AsPosix, Up, Segments, Segment;
    DirectoryOf(dirs, file);
    UpParts(dirs, k - 1);
  }

  lemma {:induction false} JoinGrows(a: seq<string>, u: seq<string>, v: seq<string>)
    requires u != [] ==> v != []
    requires |Join(u, "/")| <= |Join(v, "/")|
    ensures |Join(a + u, "/")| <= |Join(a + v, "/")|
  {
    if a == [] {
      assert a + u == u && a + v == v;
    } else {
      Uncons(a, u);
      Uncons(a, v);
      JoinGrows(a[1..], u, v);
    }
  }

  lemma {:induction false} JoinGrowsInFront(a: seq<string>, u: seq<string>)
    ensures |Join(u, "/")| <= |Join(a + u, "/")|
  {
    if a == [] {
      assert a + u == u;
    } else {
      Uncons(a, u);
      JoinGrowsInFront(a[1..], u);
    }
  }

  lemma JoinIsLong(parts: seq<string>)
    requires parts != [] && Segments(parts)
    ensures |Join(parts, "/")| >= 1
  {
    assert Segment(parts[0]);
  }

  lemma UpperSegments(dirs: seq<string>, m: nat, names: seq<string>)
    requires Segments(dirs + names) && m < |dirs|
    ensures Segments(dirs[..m] + names)
  {
    var up := dirs[..m];
    forall i | 0 <= i < |up + names|
      ensures Segment((up + names)[i])
    {
      assert (up + names)[i] == if i < m then (dirs + names)[i] else (dirs + names)[i - m + |dirs|];
    }
  }

  /** Leaving directories out of a path makes another path, and not a longer text. */
  lemma ShorterPath(dirs: seq<string>, m: nat, names: seq<string>)
    requires Segments(dirs + names) && m < |dirs|
    ensures var long, short := AsPosix(Path("", dirs + names)), AsPosix(Path("", dirs[..m] + names));
      |short| <= |long| && short != long
  {
    hide PathOf, Join, Segments;
    var up := dirs[..m];
    UpperSegments(dirs, m, names);
    PathOfPosix(dirs + names);
    PathOfPosix(up + names);
    JoinIsLong(dirs + names);
    JoinGrowsInFront(dirs[m..], names);
    JoinGrows(up, names, dirs[m..] + names);
    assert up + (dirs[m..] + names) == dirs + names;
  }

  /** No candidate of a path is a path with fewer parts that it extends. */
  lemma ShorterPathIsNoCandidate(dirs: seq<string>, m: nat, names: seq<string>)
    requires Segments(dirs + names) && m < |dirs|
    ensures AsPosix(Path("", dirs[..m] + names)) !in Candidates(AsPosix(Path("", dirs + names)))
  {
    hide PathOf, AsPosix, HasSuffix, Segments;
    ShorterPath(dirs, m, names);
  }

  /** A relative import finds what Python would import, whatever is indexed, exactly when it has one dot. */
  lemma RelativeImportIsRightExactlyWhen(dirs: seq<string>, file: string, k: nat, names: seq<string>)
    requires k > 0 && Segments(dirs) && Segment(file) && forall i | 0 <= i < |names| :: PlainName(names[i])
    ensures (forall known: set<string> :: Lookup(known, Join(dirs + [file], "/"), Dots(k) + Join(names, "."))
                                       == IntendedFile(known, Join(dirs + [file], "/"), k, names))
      <==> k == 1
  {
    hide Normalized, PathOf, Join, AsPosix, Dots, Candidates, Intended, FirstKnown;
    var source, target := Join(dirs + [file], "/"), Dots(k) + Join(names, ".");
    RelativeImportIsLookedUpBesideItsSource(dirs, file, k, names);
    IntendedIs(dirs, file, k, names);
    if k == 1 {
      assert dirs[..|dirs|] == dirs;
    } else if k - 1 <= |dirs| {
      PlainNamesAreSegments(names);
      ShorterPathIsNoCandidate(dirs, |dirs| - (k - 1), names);
      var intended := Intended(source, k, names).value;
      OwnCandidate(intended);
      assert Lookup({intended}, source, target).None?;
    } else {
      var found := AsPosix(Path("", dirs + names));
      OwnCandidate(found);
      assert Lookup({found}, source, target) == Some(found);
    }
  }

  /** A path that is indexed is its own first candidate. */
  lemma OwnCandidate(path: string)
    ensures FirstKnown(Candidates(path), {path}) == Some(path)
  {
  }

  /** A relative import of a module beside its source finds the module's file. */
  lemma SiblingModuleResolves(known: set<string>, dirs: seq<string>, file: string, k: nat, names: seq<string>)
    requires k > 0 && Segments(dirs) && Segment(file)
    requires names != [] && forall i | 0 <= i < |names| :: PlainName(names[i])
    requires Join(dirs + names, "/") !in known && Join(dirs + names, "/") + ".py" in known
    ensures Resolve(known, Join(dirs + [file], "/"), Dots(k) + Join(names, ".")) == Join(dirs + names, "/") + ".py"
  {
    hide Normalized, PathOf, Join, Dots, Candidates, FirstKnown, HasSuffix;
    var path := Join(dirs + names, "/");
    RelativeImportIsLookedUpBesideItsSource(dirs, file, k, names);
    assert AsPosix(Path("", dirs + names)) == path by {
      assert dirs + names != [] && "" + path == path;
    }
    assert !HasSuffix(PathOf(path)) by {
      LastNameHasNoSuffix(dirs, names);
    }
    SecondCandidate(known, path);
  }

  lemma LastNameHasNoSuffix(dirs: seq<string>, names: seq<string>)
    requires Segments(dirs) && names != [] && forall i | 0 <= i < |names| :: PlainName(names[i])
    ensures !HasSuffix(PathOf(Join(dirs + names, "/")))
  {
    hide PathOf, Join, LastDot;
    PlainNamesAreSegments(names);
    PathOfJoin(dirs + names);
    NoDotNoSuffix(names[|names| - 1]);
    assert (dirs + names)[|dirs + names| - 1] == names[|names| - 1];
  }
}
