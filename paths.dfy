/** The path arithmetic the engine relies on: `os.path.join`, `os.path.basename`,
    `os.path.dirname`, `str.split('/')`, substring tests, and the canonical form under
    which the filesystem model stores a path. */
module Paths {
  import opened Names

  type Path = string

  predicate SlashFree(s: string) {
    '/' !in s
  }

  predicate EndsWithSlash(p: string) {
    |p| > 0 && p[|p| - 1] == '/'
  }

  /** posixpath.join(a, b): an absolute `b` replaces `a`; otherwise a separator is
      inserted unless `a` is empty or already ends with one. */
  function Join(a: Path, b: string): (r: Path)
    ensures a != "" || b != "" ==> r != ""
  {
    if |b| > 0 && b[0] == '/' then b
    else if a == "" || EndsWithSlash(a) then a + b
    else a + "/" + b
  }

  /** Index of the last `/` in `s`, if any. */
  function LastSlash(s: string): (r: Option<nat>)
    ensures r.None? <==> SlashFree(s)
    ensures r.Some? ==> r.value < |s| && s[r.value] == '/' && SlashFree(s[r.value + 1..])
    decreases |s|
  {
    if s == [] then None
    else if s[|s| - 1] == '/' then Some(|s| - 1)
    else
      var r := LastSlash(s[..|s| - 1]);
      assert s[..|s| - 1] + [s[|s| - 1]] == s;
      if r.Some? then
        assert s[r.value + 1..] == s[..|s| - 1][r.value + 1..] + [s[|s| - 1]];
        r
      else r
  }

  /** posixpath.basename: everything after the last `/`. */
  function Basename(p: Path): (r: string)
    ensures SlashFree(r) && |r| <= |p|
  {
    match LastSlash(p)
    case None => p
    case Some(i) => p[i + 1..]
  }

  /** The module name of a module path: the basename after one trailing `/` is dropped
      (mysubmodules_func.py:173-176, :367-370, :494-497). */
  function ModuleName(p: Path): (r: Name)
    requires |p| > 0
    ensures SlashFree(r)
  {
    if p[|p| - 1] == '/' then Basename(p[..|p| - 1]) else Basename(p)
  }

  lemma {:induction false} LastSlashAfterSeparator(a: string, b: string)
    requires EndsWithSlash(a) && SlashFree(b)
    ensures LastSlash(a + b) == Some(|a| - 1)
    decreases |b|
  {
    if b != "" {
      assert (a + b)[..|a + b| - 1] == a + b[..|b| - 1];
      LastSlashAfterSeparator(a, b[..|b| - 1]);
    }
  }

  /** The name the module is placed under is recovered from the path the engine builds for it. */
  lemma ModuleNameOfJoin(a: Path, b: Name)
    requires SlashFree(b) && b != ""
    ensures Join(a, b) != "" && ModuleName(Join(a, b)) == b
  {
    if a != "" && EndsWithSlash(a) {
      ModuleNameAfterSeparator(a, b);
    } else if a != "" {
      assert a + "/" + b == (a + "/") + b;
      ModuleNameAfterSeparator(a + "/", b);
    }
  }

  lemma ModuleNameAfterSeparator(a: Path, b: Name)
    requires EndsWithSlash(a) && SlashFree(b) && b != ""
    ensures ModuleName(a + b) == b
  {
    LastSlashAfterSeparator(a, b);
    assert (a + b)[|a|..] == b;
  }

  function RStripSlashes(s: string): (r: string)
    ensures |r| <= |s| && r == s[..|r|]
    ensures r == "" || r[|r| - 1] != '/'
    decreases |s|
  {
    if s != [] && s[|s| - 1] == '/' then RStripSlashes(s[..|s| - 1]) else s
  }

  /** posixpath.dirname: the head up to the last `/`, with trailing separators removed
      unless the head consists of separators only. */
  function Dirname(p: Path): Path {
    var head := match LastSlash(p) case None => "" case Some(i) => p[..i + 1];
    if head != "" && !OnlySlashes(head) then RStripSlashes(head) else head
  }

  predicate OnlySlashes(s: string) {
    forall k :: 0 <= k < |s| ==> s[k] == '/'
  }

  /** Python's `s.split('/')`: the pieces between separators, empty ones included. */
  function SplitOnSlash(s: string): (r: seq<string>)
    ensures |r| >= 1
    ensures forall k :: 0 <= k < |r| ==> SlashFree(r[k])
    decreases |s|
  {
    if SlashFree(s) then [s]
    else
      var i := FirstSlash(s);
      [s[..i]] + SplitOnSlash(s[i + 1..])
  }

  function FirstSlash(s: string): (i: nat)
    requires !SlashFree(s)
    ensures i < |s| && s[i] == '/' && SlashFree(s[..i])
    decreases |s|
  {
    if s[0] == '/' then 0
    else
      assert s == [s[0]] + s[1..];
      var i := FirstSlash(s[1..]);
      assert s[..i + 1] == [s[0]] + s[1..][..i];
      i + 1
  }

  lemma {:induction false} FirstSlashAfter(x: string, y: string)
    requires SlashFree(x)
    ensures FirstSlash(x + "/" + y) == |x|
    decreases |x|
  {
    if x != "" {
      assert (x + "/" + y)[1..] == x[1..] + "/" + y;
      FirstSlashAfter(x[1..], y);
    }
  }

  lemma SplitOnSlashConcat(x: string, y: string)
    requires SlashFree(x)
    ensures SplitOnSlash(x + "/" + y) == [x] + SplitOnSlash(y)
  {
    var s := x + "/" + y;
    assert s[|x|] == '/';
    FirstSlashAfter(x, y);
    assert s[..|x|] == x;
    assert s[|x| + 1..] == y;
  }

  /** `modulepath.split('/')[-2]`, the module name the path planner reads from a path
      that ends in `/` (mysubmodules_func.py:224); `None` where Python raises IndexError. */
  function ModuleAt(p: Path): Option<Name> {
    var parts := SplitOnSlash(p);
    if |parts| < 2 then None else Some(parts[|parts| - 2])
  }

  /** The last two pieces of a split are `b` and the empty piece after a final `/`. */
  predicate EndsInNameSlash(parts: seq<string>, b: string) {
    |parts| >= 2 && parts[|parts| - 2] == b && parts[|parts| - 1] == ""
  }

  lemma {:induction false} SplitOnSlashLastTwo(x: string, b: string)
    requires x == "" || EndsWithSlash(x)
    requires SlashFree(b)
    ensures EndsInNameSlash(SplitOnSlash(x + b + "/"), b)
    decreases |x|
  {
    if x == "" {
      assert x + b + "/" == b + "/" + "";
      SplitOnSlashConcat(b, "");
    } else {
      var i := FirstSlash(x);
      var h := x[..i];
      var y := x[i + 1..];
      assert x == h + "/" + y by { assert x == x[..i] + [x[i]] + x[i + 1..]; }
      var rest := y + b + "/";
      assert x + b + "/" == h + "/" + rest;
      SplitOnSlashConcat(h, rest);
      assert y == "" || EndsWithSlash(y) by {
        if y != "" { assert y[|y| - 1] == x[|x| - 1]; }
      }
      SplitOnSlashLastTwo(y, b);
      ConsKeepsEnding(h, SplitOnSlash(rest), b);
    }
  }

  lemma ConsKeepsEnding(h: string, parts: seq<string>, b: string)
    requires EndsInNameSlash(parts, b)
    ensures EndsInNameSlash([h] + parts, b)
  {
  }

  /** The planner's module name of a child path it built is the child's name. */
  lemma ModuleAtJoin(a: Path, b: Name)
    requires SlashFree(b)
    ensures ModuleAt(Join(a, b) + "/") == Some(b)
  {
    if a == "" || EndsWithSlash(a) {
      assert Join(a, b) + "/" == a + b + "/";
      SplitOnSlashLastTwo(a, b);
    } else {
      assert Join(a, b) + "/" == (a + "/") + b + "/";
      SplitOnSlashLastTwo(a + "/", b);
    }
  }

  /** `needle in hay` for two strings. */
  predicate Substring(needle: string, hay: string) {
    exists i | 0 <= i <= |hay| - |needle| :: OccursAt(needle, hay, i)
  }

  predicate OccursAt(needle: string, hay: string, i: int) {
    0 <= i <= |hay| - |needle| && hay[i..i + |needle|] == needle
  }

  /** The form under which the filesystem model stores a path: one trailing `/` dropped. */
  function Canon(p: Path): (r: Path)
    ensures |r| <= |p|
  {
    if EndsWithSlash(p) then p[..|p| - 1] else p
  }

  lemma CanonJoin(p: Path, f: Name)
    requires p != "" && SlashFree(f) && f != ""
    ensures Canon(Join(p, f)) == Canon(p) + "/" + f
  {
    if EndsWithSlash(p) {
      assert p == p[..|p| - 1] + "/";
    }
  }

  /** `k` is `c` itself or lies below it. */
  predicate Under(k: Path, c: Path) {
    k == c || (|k| > |c| && k[..|c|] == c && k[|c|] == '/')
  }

  /** `k` is a direct child of `c`: `c`, a separator, and a non-empty slash-free name. */
  predicate IsChildKey(c: Path, k: Path) {
    |k| > |c| + 1 && k[..|c|] == c && k[|c|] == '/' && SlashFree(k[|c| + 1..])
  }

  /** The first path component of `s`: what `s` holds before its first `/`. */
  function Head(s: string): string {
    if SlashFree(s) then s else s[..FirstSlash(s)]
  }
}
