/**
 * A POSIX model of the three `node:path` operations the file reader relies on:
 * `resolve` (join onto a base and normalise), `relative` (the path from one
 * absolute path to another) and `dirname`. An absolute normalised path is the
 * sequence of its segments: `/home/u/ws` is ["home", "u", "ws"], `/` is [].
 */
module PosixPath {
  import opened Text

  /** A segment of a normalised absolute path: a name, holding no '/'. */
  predicate IsSegment(s: string)
  {
    s != "" && s != "." && s != ".." && '/' !in s
  }

  /** A segment of a relative path as `path.relative` builds it: a name or "..". */
  predicate IsStep(s: string)
  {
    s != "" && s != "." && '/' !in s
  }

  /** A normalised absolute path. */
  predicate IsNormal(p: seq<string>)
  {
    forall i :: 0 <= i < |p| ==> IsSegment(p[i])
  }

  /** A normalised absolute path, as a type. */
  type NormalPath = p: seq<string> | IsNormal(p)

  /** `path.isAbsolute(s)` */
  predicate IsAbsoluteText(s: string)
  {
    |s| > 0 && s[0] == '/'
  }

  /** `s.split('/')` */
  function SplitSlash(s: string): (parts: seq<string>)
    ensures |parts| >= 1
    ensures forall i :: 0 <= i < |parts| ==> '/' !in parts[i]
  {
    if |s| == 0 then [""]
    else
      var rest := SplitSlash(s[1..]);
      if s[0] == '/' then [""] + rest
      else [[s[0]] + rest[0]] + rest[1..]
  }

  /** The pieces of a path text that take part in normalisation: empty pieces and "." drop out. */
  function Components(parts: seq<string>): (cs: seq<string>)
    requires forall i :: 0 <= i < |parts| ==> '/' !in parts[i]
    ensures forall i :: 0 <= i < |cs| ==> IsStep(cs[i])
  {
    if |parts| == 0 then []
    else if parts[0] == "" || parts[0] == "." then Components(parts[1..])
    else [parts[0]] + Components(parts[1..])
  }

  /** Appends components to a normalised path; ".." climbs one level and stops at `/`. */
  function Normalize(base: seq<string>, cs: seq<string>): (p: seq<string>)
    requires IsNormal(base)
    requires forall i :: 0 <= i < |cs| ==> IsStep(cs[i])
    ensures IsNormal(p)
    decreases |cs|
  {
    if |cs| == 0 then base
    else if cs[0] == ".." then Normalize(if |base| == 0 then [] else base[..|base| - 1], cs[1..])
    else
      assert IsStep(cs[0]);
      Normalize(base + [cs[0]], cs[1..])
  }

  /** The normalised absolute path a path text denotes when resolved from directory `from`. */
  function ResolveFrom(from: seq<string>, s: string): (p: seq<string>)
    requires IsNormal(from)
    ensures IsNormal(p)
  {
    Normalize(if IsAbsoluteText(s) then [] else from, Components(SplitSlash(s)))
  }

  /** The length of the longest common prefix of two paths. */
  function CommonLength(a: seq<string>, b: seq<string>): (k: nat)
    ensures k <= |a| && k <= |b|
    ensures a[..k] == b[..k]
    ensures k < |a| && k < |b| ==> a[k] != b[k]
  {
    if |a| > 0 && |b| > 0 && a[0] == b[0] then
      var k := 1 + CommonLength(a[1..], b[1..]);
      assert a[..k] == [a[0]] + a[1..][..k - 1];
      assert b[..k] == [b[0]] + b[1..][..k - 1];
      k
    else 0
  }

  lemma CommonLengthOfPrefix(a: seq<string>, b: seq<string>)
    ensures CommonLength(a, b) == |a| <==> a <= b
  {
    var k := CommonLength(a, b);
    if a <= b && k < |a| {
      assert false;
    }
  }

  function Climb(n: nat): (r: seq<string>)
    ensures |r| == n && forall i :: 0 <= i < n ==> r[i] == ".."
  {
    if n == 0 then [] else [".."] + Climb(n - 1)
  }

  /** The segments of `path.relative(from, to)`: climb out of what is not shared, then descend. */
  function Relative(from: seq<string>, to: seq<string>): (r: seq<string>)
    requires IsNormal(from) && IsNormal(to)
    ensures forall i :: 0 <= i < |r| ==> IsStep(r[i])
    ensures |r| == (|from| - CommonLength(from, to)) + (|to| - CommonLength(from, to))
    ensures forall i :: 0 <= i < |from| - CommonLength(from, to) ==> r[i] == ".."
    ensures forall i :: |from| - CommonLength(from, to) <= i < |r| ==> IsSegment(r[i])
  {
    var k := CommonLength(from, to);
    Climb(|from| - k) + to[k..]
  }

  /** `path.relative(from, to)` as text. */
  function RelativeText(from: seq<string>, to: seq<string>): string
    requires IsNormal(from) && IsNormal(to)
  {
    Join(Relative(from, to), "/")
  }

  /** Climbing `n` levels drops the last `n` segments of the base. */
  lemma {:induction false} ClimbUp(base: seq<string>, n: nat, rest: seq<string>)
    requires IsNormal(base) && n <= |base|
    requires forall i :: 0 <= i < |rest| ==> IsStep(rest[i])
    ensures Normalize(base, Climb(n) + rest) == Normalize(base[..|base| - n], rest)
    decreases n
  {
    if n > 0 {
      var cs := Climb(n) + rest;
      assert cs[0] == ".." && cs[1..] == Climb(n - 1) + rest;
      var up := base[..|base| - 1];
      ClimbUp(up, n - 1, rest);
      assert up[..|up| - (n - 1)] == base[..|base| - n];
    } else {
      assert Climb(n) + rest == rest && base[..|base|] == base;
    }
  }

  /** Names descend: each is appended to the base. */
  lemma {:induction false} Descend(base: seq<string>, names: seq<string>)
    requires IsNormal(base) && IsNormal(names)
    ensures Normalize(base, names) == base + names
    decreases |names|
  {
    if |names| > 0 {
      Descend(base + [names[0]], names[1..]);
      assert base + [names[0]] + names[1..] == base + names;
    }
  }

  /** Climbing `n` levels and then descending by names replaces the last `n` segments by those names. */
  lemma ClimbThenDescend(base: seq<string>, n: nat, names: seq<string>)
    requires IsNormal(base) && n <= |base| && IsNormal(names)
    ensures Normalize(base, Climb(n) + names) == base[..|base| - n] + names
  {
    var up := base[..|base| - n];
    assert forall i :: 0 <= i < |up| ==> up[i] == base[i];
    assert forall i :: 0 <= i < |names| ==> IsStep(names[i]);
    ClimbUp(base, n, names);
    Descend(up, names);
  }

  /** Resolving the segments of `path.relative(from, to)` from `from` gives back `to`. */
  lemma RelativeResolves(from: seq<string>, to: seq<string>)
    requires IsNormal(from) && IsNormal(to)
    ensures Normalize(from, Relative(from, to)) == to
  {
    var k := CommonLength(from, to);
    var down := to[k..];
    assert forall i :: 0 <= i < |down| ==> down[i] == to[k + i];
    ClimbThenDescend(from, |from| - k, down);
    assert from[..|from| - (|from| - k)] + down == to[..k] + down == to;
  }

  /** `s.split('/')` of a text with no separator is the text itself. */
  lemma {:induction false} SplitName(s: string)
    requires '/' !in s
    ensures SplitSlash(s) == [s]
    decreases |s|
  {
    if |s| > 0 {
      assert s[0] in s;
      assert forall c :: c in s[1..] ==> c in s;
      SplitName(s[1..]);
      assert [s[0]] + s[1..] == s;
    }
  }

  /** A name followed by a separator splits off as one piece. */
  lemma {:induction false} SplitAfterName(a: string, rest: string)
    requires '/' !in a
    ensures SplitSlash(a + "/" + rest) == [a] + SplitSlash(rest)
    decreases |a|
  {
    var s := a + "/" + rest;
    if |a| == 0 {
      assert s[0] == '/' && s[1..] == rest;
    } else {
      assert s[0] == a[0] && s[1..] == a[1..] + "/" + rest;
      assert a[0] in a;
      assert forall c :: c in a[1..] ==> c in a;
      SplitAfterName(a[1..], rest);
      assert [a[0]] + a[1..] == a;
    }
  }

  /** Splitting a joined list of names gives the list back. */
  lemma {:induction false} SplitJoin(r: seq<string>)
    requires |r| > 0 && forall i :: 0 <= i < |r| ==> '/' !in r[i]
    ensures SplitSlash(Join(r, "/")) == r
    decreases |r|
  {
    if |r| == 1 {
      SplitName(r[0]);
    } else {
      SplitAfterName(r[0], Join(r[1..], "/"));
      SplitJoin(r[1..]);
      assert [r[0]] + r[1..] == r;
    }
  }

  /** Steps survive normalisation's filtering unchanged. */
  lemma {:induction false} ComponentsOfSteps(r: seq<string>)
    requires forall i :: 0 <= i < |r| ==> IsStep(r[i])
    ensures forall i :: 0 <= i < |r| ==> '/' !in r[i]
    ensures Components(r) == r
    decreases |r|
  {
    if |r| > 0 {
      ComponentsOfSteps(r[1..]);
      assert [r[0]] + r[1..] == r;
    }
  }

  /** `path.resolve(from, path.relative(from, to))` is `to`: the relative text is an inverse of resolution. */
  lemma RelativeTextResolves(from: seq<string>, to: seq<string>)
    requires IsNormal(from) && IsNormal(to)
    ensures ResolveFrom(from, RelativeText(from, to)) == to
  {
    var r := Relative(from, to);
    RelativeNeverAbsolute(from, to);
    RelativeResolves(from, to);
    if |r| == 0 {
      assert Components(SplitSlash("")) == Components([""]) == [];
    } else {
      SplitJoin(r);
      ComponentsOfSteps(r);
    }
  }

  /**
   * The workspace check of the file reader: the relative path starts with ".."
   * or is absolute.
   */
  predicate Escapes(rel: string)
  {
    StartsWith(rel, "..") || IsAbsoluteText(rel)
  }

  lemma JoinHead(parts: seq<string>, sep: string)
    requires |parts| > 0 && |parts[0]| > 0
    ensures |Join(parts, sep)| > 0 && Join(parts, sep)[0] == parts[0][0]
  {
    if |parts| > 1 {
      assert Join(parts, sep) == parts[0] + sep + Join(parts[1..], sep);
    }
  }

  /** A relative path built from steps starts with ".." exactly when its first step does. */
  lemma StepsStartWithDots(r: seq<string>)
    requires forall i :: 0 <= i < |r| ==> IsStep(r[i])
    ensures StartsWith(Join(r, "/"), "..") <==> |r| > 0 && StartsWith(r[0], "..")
  {
    if |r| > 0 {
      if |r[0]| >= 2 {
        JoinStartsWith(r, "/", "..");
      } else {
        JoinHead(r, "/");
        assert r[0] == [r[0][0]];
        assert r[0] != ".";
        assert r[0][0] != '.';
      }
    }
  }

  /** `path.relative` never yields an absolute path. */
  lemma {:induction false} RelativeNeverAbsolute(from: seq<string>, to: seq<string>)
    requires IsNormal(from) && IsNormal(to)
    ensures !IsAbsoluteText(RelativeText(from, to))
  {
    var r := Relative(from, to);
    if |r| > 0 {
      JoinHead(r, "/");
    }
  }

  /**
   * The workspace check rejects a resolved path exactly when the path lies
   * outside the root, or lies inside it but its first segment below the root
   * starts with ".." (so a file named "..notes" at the top of the root is
   * rejected as well).
   */
  lemma {:induction false} EscapesIff(root: seq<string>, full: seq<string>)
    requires IsNormal(root) && IsNormal(full)
    ensures Escapes(RelativeText(root, full)) <==>
      !(root <= full) || (|full| > |root| && StartsWith(full[|root|], ".."))
  {
    RelativeNeverAbsolute(root, full);
    var k := CommonLength(root, full);
    var r := Relative(root, full);
    StepsStartWithDots(r);
    CommonLengthOfPrefix(root, full);
    if root <= full {
      assert r == full[|root|..];
    } else {
      assert r[0] == "..";
    }
  }

  /** Accepted paths are inside the root: the root is a prefix of the resolved path. */
  lemma AcceptedIsContained(root: seq<string>, full: seq<string>)
    requires IsNormal(root) && IsNormal(full)
    requires !Escapes(RelativeText(root, full))
    ensures root <= full
  {
    EscapesIff(root, full);
  }

  /** The position of the last separator that `dirname` cuts at, scanning down from `i`; -1 if none. */
  function DirnameEnd(p: string, i: int, matchedSlash: bool): (e: int)
    requires i < |p|
    ensures e == -1 || (1 <= e <= i && p[e] == '/')
    decreases i
  {
    if i < 1 then -1
    else if p[i] == '/' then (if !matchedSlash then i else DirnameEnd(p, i - 1, true))
    else DirnameEnd(p, i - 1, false)
  }

  /** `path.dirname(p)` on POSIX. */
  function Dirname(p: string): string
  {
    if |p| == 0 then "."
    else
      var hasRoot := p[0] == '/';
      var e := DirnameEnd(p, |p| - 1, true);
      if e == -1 then (if hasRoot then "/" else ".")
      else if hasRoot && e == 1 then "//"
      else p[..e]
  }

  lemma {:induction false} DirnameEndNoSlash(p: string, i: int, matchedSlash: bool)
    requires i < |p| && '/' !in p
    ensures DirnameEnd(p, i, matchedSlash) == -1
    decreases i
  {
    if i >= 1 {
      assert p[i] in p;
      DirnameEndNoSlash(p, i - 1, false);
    }
  }

  /** A bare file name has "." as its directory. */
  lemma DirnameOfName(p: string)
    requires '/' !in p
    ensures Dirname(p) == "."
  {
    if |p| > 0 {
      assert p[0] in p;
      DirnameEndNoSlash(p, |p| - 1, true);
    }
  }

  lemma {:induction false} DirnameEndInName(d: string, f: string, i: int)
    requires 0 < |d| <= i < |d| + 1 + |f| && '/' !in f
    requires |f| > 0
    ensures DirnameEnd(d + "/" + f, i, i == |d| + |f|) == |d|
    decreases i
  {
    var p := d + "/" + f;
    if i > |d| {
      assert p[i] == f[i - |d| - 1] && p[i] in f;
      DirnameEndInName(d, f, i - 1);
    } else {
      assert p[i] == '/';
    }
  }

  /** The directory of "d/f" is "d" when "f" is a name and "d" is a non-empty relative directory. */
  lemma DirnameOfNested(d: string, f: string)
    requires |d| > 0 && d[0] != '/' && |f| > 0 && '/' !in f
    ensures Dirname(d + "/" + f) == d
  {
    var p := d + "/" + f;
    DirnameEndInName(d, f, |p| - 1);
    assert p[..|d|] == d;
  }
}
