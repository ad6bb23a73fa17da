/**
 * POSIX path joining as Node's `path.join` does it: the non-empty
 * arguments are glued with "/" and the result is normalised segment by
 * segment ("" and "." segments vanish, ".." removes the previous
 * segment, a trailing "/" is kept).
 */
module Paths {

  type Path = string

  /** The "/"-separated segments of `p`; never empty ("" has one empty segment). */
  function Split(p: string): (segs: seq<string>)
    ensures |segs| >= 1
    decreases |p|
  {
    if |p| == 0 then [""]
    else
      var rest := Split(p[1..]);
      if p[0] == '/' then [""] + rest
      else [[p[0]] + rest[0]] + rest[1..]
  }

  /** The segments glued back together with "/". */
  function Glue(segs: seq<string>): string
  {
    if |segs| == 0 then ""
    else if |segs| == 1 then segs[0]
    else segs[0] + "/" + Glue(segs[1..])
  }

  /** A segment that normalisation keeps as it is. */
  predicate Plain(s: string)
  {
    s != "" && s != "." && s != ".." && '/' !in s
  }

  /** One step of Node's `normalizeString`: how segment `seg` changes the segments kept so far. */
  function Step(kept: seq<string>, seg: string, allowAboveRoot: bool): seq<string>
  {
    if seg == "" || seg == "." then kept
    else if seg == ".." then
      if |kept| > 0 && kept[|kept| - 1] != ".." then kept[..|kept| - 1]
      else if allowAboveRoot then kept + [".."]
      else kept
    else kept + [seg]
  }

  function Resolve(kept: seq<string>, segs: seq<string>, allowAboveRoot: bool): seq<string>
    decreases |segs|
  {
    if |segs| == 0 then kept
    else Resolve(Step(kept, segs[0], allowAboveRoot), segs[1..], allowAboveRoot)
  }

  /** `path.posix.normalize`. */
  function Normalize(p: string): Path
  {
    if |p| == 0 then "."
    else
      var absolute := p[0] == '/';
      var trailing := p[|p| - 1] == '/';
      var body := Glue(Resolve([], Split(p), !absolute));
      if |body| == 0 then
        (if absolute then "/" else if trailing then "./" else ".")
      else
        var withSlash := if trailing then body + "/" else body;
        if absolute then "/" + withSlash else withSlash
  }

  /** `path.posix.join(a, b)`: empty arguments are skipped. */
  function Join(a: string, b: string): Path
  {
    if |a| == 0 && |b| == 0 then "."
    else if |a| == 0 then Normalize(b)
    else if |b| == 0 then Normalize(a)
    else Normalize(a + "/" + b)
  }

  /** An absolute path already in normal form, other than the root itself. */
  predicate NormalAbsolute(dir: Path)
  {
    |dir| > 1 && dir[0] == '/' && forall s <- Split(dir[1..]) :: Plain(s)
  }

  /** `p` names an entry directly inside directory `dir`. */
  predicate DirectlyInside(dir: Path, p: Path)
  {
    |p| > |dir| + 1 && p[..|dir| + 1] == dir + "/" && '/' !in p[|dir| + 1..]
  }

  /** The directory that holds `p` (the root for a top-level entry). */
  function Parent(p: Path): Path
  {
    var segs := Split(p);
    var up := Glue(segs[..|segs| - 1]);
    if |up| == 0 && |p| > 0 && p[0] == '/' then "/" else up
  }

  // ---------------------------------------------------------------------
  // Facts about Split and Glue

  lemma {:induction false} GlueSplit(p: string)
    ensures Glue(Split(p)) == p
    decreases |p|
  {
    if |p| > 0 {
      var rest := Split(p[1..]);
      GlueSplit(p[1..]);
      if p[0] == '/' {
        assert Split(p) == [""] + rest;
        assert p == "" + "/" + p[1..];
      } else if |rest| == 1 {
        assert Split(p) == [[p[0]] + rest[0]];
        assert p == [p[0]] + p[1..];
      } else {
        var segs := [[p[0]] + rest[0]] + rest[1..];
        assert Split(p) == segs;
        assert segs[1..] == rest[1..];
        assert Glue(rest) == rest[0] + "/" + Glue(rest[1..]);
        assert p == [p[0]] + p[1..];
      }
    }
  }

  lemma {:induction false} SplitNoSlash(s: string)
    requires '/' !in s
    ensures Split(s) == [s]
    decreases |s|
  {
    if |s| > 0 {
      assert '/' !in s[1..] by {
        forall i | 0 <= i < |s[1..]| ensures s[1..][i] != '/' { assert s[1..][i] == s[i + 1]; }
      }
      SplitNoSlash(s[1..]);
      assert s == [s[0]] + s[1..];
    }
  }

  lemma {:induction false} SplitSegmentsHaveNoSlash(p: string)
    ensures forall seg <- Split(p) :: '/' !in seg
    decreases |p|
  {
    if |p| > 0 {
      SplitSegmentsHaveNoSlash(p[1..]);
    }
  }

  /** Split one character at a time. */
  lemma SplitCons(c: char, x: string)
    ensures Split([c] + x) == if c == '/' then [""] + Split(x) else [[c] + Split(x)[0]] + Split(x)[1..]
  {
    assert ([c] + x)[1..] == x;
  }

  /** Extending the first segment commutes with appending more segments. */
  lemma ExtendFirst(h: string, s: seq<string>, t: seq<string>)
    requires |s| > 0
    ensures [h + (s + t)[0]] + (s + t)[1..] == ([h + s[0]] + s[1..]) + t
  {
    assert (s + t)[0] == s[0];
    assert (s + t)[1..] == s[1..] + t;
  }

  lemma SplitAppendStep(c: char, a: string, b: string)
    requires c != '/'
    requires Split(a + "/" + b) == Split(a) + Split(b)
    ensures Split([c] + a + "/" + b) == Split([c] + a) + Split(b)
  {
    var x := a + "/" + b;
    assert [c] + a + "/" + b == [c] + x;
    SplitCons(c, x);
    SplitCons(c, a);
    ExtendFirst([c], Split(a), Split(b));
  }

  lemma SplitAppendSlashStep(a: string, b: string)
    requires Split(a + "/" + b) == Split(a) + Split(b)
    ensures Split(['/'] + a + "/" + b) == Split(['/'] + a) + Split(b)
  {
    var x := a + "/" + b;
    var s, sb := Split(a), Split(b);
    calc {
      Split(['/'] + a + "/" + b);
    == { assert ['/'] + a + "/" + b == ['/'] + x; }
      Split(['/'] + x);
    == { SplitCons('/', x); }
      [""] + (s + sb);
    ==
      ([""] + s) + sb;
    == { SplitCons('/', a); }
      Split(['/'] + a) + sb;
    }
  }

  lemma {:induction false} SplitAppend(a: string, b: string)
    ensures Split(a + "/" + b) == Split(a) + Split(b)
    decreases |a|
  {
    if |a| == 0 {
      assert a + "/" + b == ['/'] + b;
      SplitCons('/', b);
    } else {
      SplitAppend(a[1..], b);
      if a[0] == '/' {
        SplitAppendSlashStep(a[1..], b);
      } else {
        SplitAppendStep(a[0], a[1..], b);
      }
      assert a == [a[0]] + a[1..];
    }
  }

  lemma {:induction false} GlueSnoc(segs: seq<string>, last: string)
    requires |segs| > 0
    ensures Glue(segs + [last]) == Glue(segs) + "/" + last
    decreases |segs|
  {
    if |segs| == 1 {
      assert segs + [last] == [segs[0], last];
      assert [segs[0], last][1..] == [last];
    } else {
      assert (segs + [last])[1..] == segs[1..] + [last];
      GlueSnoc(segs[1..], last);
    }
  }

  lemma {:induction false} GlueShorter(segs: seq<string>)
    requires |segs| > 1
    ensures |Glue(segs[..|segs| - 1])| < |Glue(segs)|
  {
    var init := segs[..|segs| - 1];
    assert segs == init + [segs[|segs| - 1]];
    GlueSnoc(init, segs[|segs| - 1]);
  }

  /** Plain segments survive normalisation unchanged. */
  lemma {:induction false} ResolvePlain(kept: seq<string>, segs: seq<string>, allowAboveRoot: bool)
    requires forall s <- segs :: Plain(s)
    ensures Resolve(kept, segs, allowAboveRoot) == kept + segs
    decreases |segs|
  {
    if |segs| > 0 {
      assert Plain(segs[0]);
      ResolvePlain(kept + [segs[0]], segs[1..], allowAboveRoot);
      assert kept + [segs[0]] + segs[1..] == kept + segs;
    }
  }

  lemma {:induction false} ResolveAppend(kept: seq<string>, a: seq<string>, b: seq<string>, allowAboveRoot: bool)
    ensures Resolve(kept, a + b, allowAboveRoot) == Resolve(Resolve(kept, a, allowAboveRoot), b, allowAboveRoot)
    decreases |a|
  {
    if |a| == 0 {
      assert a + b == b;
    } else {
      assert (a + b)[0] == a[0];
      assert (a + b)[1..] == a[1..] + b;
      ResolveAppend(Step(kept, a[0], allowAboveRoot), a[1..], b, allowAboveRoot);
    }
  }

  // ---------------------------------------------------------------------
  // Facts about Join

  /** A path that ends in "/" has an empty last segment. */
  lemma TrailingSlashSegment(p: string)
    ensures |p| > 0 && p[|p| - 1] == '/' ==> Split(p)[|Split(p)| - 1] == ""
  {
    if |p| > 0 && p[|p| - 1] == '/' {
      assert p == p[..|p| - 1] + "/" + "";
      SplitAppend(p[..|p| - 1], "");
    }
  }

  /** The segments of a normal absolute path, after the leading "". */
  lemma NormalAbsoluteSegments(dir: Path)
    requires NormalAbsolute(dir)
    ensures Split(dir) == [""] + Split(dir[1..])
    ensures Glue(Split(dir[1..])) == dir[1..]
    ensures dir[|dir| - 1] != '/'
  {
    GlueSplit(dir[1..]);
    var segs := Split(dir[1..]);
    assert Plain(segs[|segs| - 1]);
    TrailingSlashSegment(dir[1..]);
    assert dir[1..][|dir| - 2] == dir[|dir| - 1];
  }

  /** Normalising an absolute path that does not end in "/" glues the resolved segments after a "/". */
  lemma NormalizeAbsolute(p: string, kept: seq<string>)
    requires |p| > 0 && p[0] == '/' && p[|p| - 1] != '/'
    requires Resolve([], Split(p), false) == kept
    ensures Normalize(p) == if |Glue(kept)| == 0 then "/" else "/" + Glue(kept)
  {
  }

  /** Where an absolute path's segments are all plain, normalising only glues them back. */
  lemma NormalizePlainAbsolute(p: string, segs: seq<string>)
    requires |p| > 0 && p[0] == '/' && p[|p| - 1] != '/'
    requires Split(p) == [""] + segs && |segs| > 0
    requires forall s <- segs :: Plain(s)
    ensures Normalize(p) == "/" + Glue(segs)
  {
    ResolveAppend([], [""], segs, false);
    ResolvePlain([], segs, false);
    assert Plain(segs[0]);
    assert |Glue(segs)| > 0;
    NormalizeAbsolute(p, segs);
  }

  /** The segments of `dir + "/" + name` for an absolute `dir`. */
  lemma SplitUnder(dir: Path, name: string)
    requires |dir| > 0 && dir[0] == '/'
    ensures Split(dir + "/" + name) == [""] + Split(dir[1..]) + Split(name)
  {
    assert dir + "/" + name == "" + "/" + (dir[1..] + "/" + name);
    SplitAppend("", dir[1..] + "/" + name);
    SplitAppend(dir[1..], name);
  }

  /** Joining a normal directory with a plain name puts the name directly under it. */
  lemma JoinPlainName(dir: Path, name: string)
    requires NormalAbsolute(dir) && Plain(name)
    ensures Join(dir, name) == dir + "/" + name
    ensures DirectlyInside(dir, Join(dir, name))
  {
    NormalAbsoluteSegments(dir);
    var p := dir + "/" + name;
    var inner := Split(dir[1..]);
    SplitUnder(dir, name);
    SplitNoSlash(name);
    var segs := inner + [name];
    assert Split(p) == [""] + segs;
    assert p[|p| - 1] == name[|name| - 1];
    NormalizePlainAbsolute(p, segs);
    GlueSnoc(inner, name);
    assert "/" + (dir[1..] + "/" + name) == p;
    assert p[|dir| + 1..] == name;
  }

  /** Joining with the empty name yields the directory itself. */
  lemma JoinEmptyName(dir: Path)
    requires NormalAbsolute(dir)
    ensures Join(dir, "") == dir
  {
    NormalAbsoluteSegments(dir);
    NormalizePlainAbsolute(dir, Split(dir[1..]));
    assert "/" + dir[1..] == dir;
  }

  /** The empty segment before an absolute path's body is dropped, and plain segments are kept. */
  lemma ResolveRooted(inner: seq<string>)
    requires forall s <- inner :: Plain(s)
    ensures Resolve([], [""] + inner, false) == inner
  {
    ResolveAppend([], [""], inner, false);
    ResolvePlain([], inner, false);
  }

  /** A trailing ".." removes the last kept segment when that one is plain. */
  lemma ResolveLastDotDot(kept: seq<string>)
    requires |kept| > 0 && Plain(kept[|kept| - 1])
    ensures Resolve(kept, [".."], false) == kept[..|kept| - 1]
  {
    assert [".."][1..] == [];
    assert Resolve(kept, [".."], false) == Step(kept, "..", false);
  }

  /** The segments that survive in `dir + "/.."`: all of `dir`'s but the last. */
  lemma ResolveDotDot(dir: Path)
    requires NormalAbsolute(dir)
    ensures var inner := Split(dir[1..]);
      Resolve([], Split(dir + "/" + ".."), false) == inner[..|inner| - 1]
  {
    var inner := Split(dir[1..]);
    SplitUnder(dir, "..");
    SplitNoSlash("..");
    assert Split(dir + "/" + "..") == ([""] + inner) + [".."];
    ResolveAppend([], [""] + inner, [".."], false);
    ResolveRooted(inner);
    ResolveLastDotDot(inner);
  }

  /** Joining with ".." climbs out of the directory: the result is a strictly shorter path. */
  lemma JoinDotDotLeaves(dir: Path)
    requires NormalAbsolute(dir)
    ensures Join(dir, "..") == Parent(dir)
    ensures |Join(dir, "..")| < |dir|
    ensures !DirectlyInside(dir, Join(dir, ".."))
  {
    NormalAbsoluteSegments(dir);
    var inner := Split(dir[1..]);
    var p := dir + "/" + "..";
    var up := inner[..|inner| - 1];
    ResolveDotDot(dir);
    assert p[|p| - 1] == '.';
    NormalizeAbsolute(p, up);
    assert Join(dir, "..") == Normalize(p);
    ParentOfNormal(dir);
    if |inner| > 1 {
      GlueShorter(inner);
      GlueStartsWithFirst(up);
    } else {
      assert up == [];
    }
  }

  /** The parent of a normal absolute path: its segments but the last, under the root. */
  lemma ParentOfNormal(dir: Path)
    requires NormalAbsolute(dir)
    ensures var inner := Split(dir[1..]);
      Parent(dir) == if |inner| == 1 then "/" else "/" + Glue(inner[..|inner| - 1])
  {
    NormalAbsoluteSegments(dir);
    var inner := Split(dir[1..]);
    var up := inner[..|inner| - 1];
    assert Split(dir)[..|Split(dir)| - 1] == [""] + up;
    if |up| > 0 {
      assert ([""] + up)[1..] == up;
    }
  }

  /** A glued sequence of segments starts with its first segment. */
  lemma GlueStartsWithFirst(segs: seq<string>)
    requires |segs| > 0
    ensures |Glue(segs)| >= |segs[0]|
  {
  }

  /** A plain name under a normal absolute directory gives a normal absolute path again. */
  lemma NormalAbsoluteChild(dir: Path, name: string)
    requires NormalAbsolute(dir) && Plain(name)
    ensures NormalAbsolute(dir + "/" + name)
  {
    var p := dir + "/" + name;
    assert p[1..] == dir[1..] + "/" + name;
    SplitAppend(dir[1..], name);
    SplitNoSlash(name);
  }

  /** The join keeps a trailing "/": `path.join(dir, "/")` is `dir + "/"`. */
  lemma JoinSlash(dir: Path)
    requires NormalAbsolute(dir)
    ensures Join(dir, "/") == dir + "/"
  {
    NormalAbsoluteSegments(dir);
    var inner := Split(dir[1..]);
    var p := dir + "/" + "/";
    SplitUnder(dir, "/");
    assert Split("/") == ["", ""] by { SplitCons('/', ""); assert ['/'] + "" == "/"; }
    assert Split(p) == ([""] + inner) + ["", ""];
    ResolveAppend([], [""] + inner, ["", ""], false);
    ResolveRooted(inner);
    assert Resolve(inner, ["", ""], false) == inner;
    assert p[|p| - 1] == '/';
    assert "/" + (dir[1..] + "/") == dir + "/";
  }
}
