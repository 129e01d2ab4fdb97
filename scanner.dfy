/** Pattern scanner, `getsubmodules` (mysubmodules_func.py:105-149): finds the names in
    markers `<id>/<name>/` in the texts of a module's files. Python's regular expression
    `(?<![a-z0-9_-])<id>/([<chars>]*?)/` and `finditer` are written out as functions. */
module Scanner {
  import opened Names
  import opened Paths

  /** `[a-z0-9_-]`: the class the look-behind refuses before a marker (hard-coded at :123)
      and the default class of name characters (:62). */
  predicate IsModuleChar(c: char) {
    'a' <= c <= 'z' || '0' <= c <= '9' || c == '_' || c == '-'
  }

  /** A match of the marker pattern: the captured name and the index just past the match. */
  datatype Match = Match(name: Name, end: nat)

  /** The look-behind `(?<![a-z0-9_-])`: nothing, or no module character, just before `p`. */
  predicate Boundary(text: string, p: nat)
    requires p <= |text|
  {
    p == 0 || !IsModuleChar(text[p - 1])
  }

  /** A marker `<id>/<n>/` stands at `p`, with the boundary before it and no `/` in `n`. */
  ghost predicate MarkerAt(text: string, p: nat, id: string, n: Name) {
    p <= |text| && Boundary(text, p) && OccursAt(id + "/" + n + "/", text, p) && SlashFree(n)
  }

  /** The lazy group `([<chars>]*?)/` from index `k`: the first `/` reached through allowed
      characters only, since the lazy loop tries the closing `/` before each further character. */
  function NameEnd(text: string, k: nat, allowed: char -> bool): (r: Option<nat>)
    requires k <= |text|
    ensures r.Some? ==> k <= r.value < |text| && text[r.value] == '/'
    ensures r.Some? ==> forall j :: k <= j < r.value ==> allowed(text[j]) && text[j] != '/'
    decreases |text| - k
  {
    if k == |text| then None
    else if text[k] == '/' then Some(k)
    else if allowed(text[k]) then NameEnd(text, k + 1, allowed)
    else None
  }

  /** The match the pattern makes when tried at index `p`, if any. */
  function MatchAt(text: string, p: nat, id: string, allowed: char -> bool): (r: Option<Match>)
    requires p <= |text|
    ensures r.Some? ==> MarkerAt(text, p, id, r.value.name)
    ensures r.Some? ==> r.value.end == p + |id| + |r.value.name| + 2 <= |text|
    ensures r.Some? ==> forall c :: c in r.value.name ==> allowed(c)
  {
    var start := p + |id| + 1;
    if Boundary(text, p) && start <= |text| && text[p..start] == id + "/" then
      match NameEnd(text, start, allowed)
      case None => None
      case Some(e) =>
        var n := text[start..e];
        assert forall c :: c in n ==> allowed(c) && c != '/' by {
          forall c | c in n ensures allowed(c) && c != '/' {
            var j :| 0 <= j < |n| && n[j] == c;
            assert text[start + j] == c;
          }
        }
        assert text[p..e + 1] == text[p..start] + n + [text[e]];
        Some(Match(n, e + 1))
    else None
  }

  /** The three parts of a marker `a + n + "/"` found in a text. */
  lemma MarkerParts(text: string, p: nat, a: string, n: string)
    requires p + |a| + |n| + 1 <= |text| && text[p..p + |a| + |n| + 1] == a + n + "/"
    ensures text[p..p + |a|] == a && text[p + |a|..p + |a| + |n|] == n && text[p + |a| + |n|] == '/'
  {
    var m := a + n + "/";
    var s := text[p..p + |m|];
    assert s[..|a|] == text[p..p + |a|] && m[..|a|] == a;
    assert s[|a|..|a| + |n|] == text[p + |a|..p + |a| + |n|] && m[|a|..|a| + |n|] == n;
    assert s[|a| + |n|] == text[p + |a| + |n|] && m[|a| + |n|] == '/';
  }

  /** A marker whose name is made of allowed characters is matched, with exactly that name. */
  lemma MatchAtComplete(text: string, p: nat, id: string, allowed: char -> bool, n: Name)
    requires MarkerAt(text, p, id, n)
    requires forall c :: c in n ==> allowed(c)
    ensures MatchAt(text, p, id, allowed) == Some(Match(n, p + |id| + |n| + 2))
  {
    var start := p + |id| + 1;
    MarkerParts(text, p, id + "/", n);
    NameEndAfterName(text, start, allowed, n);
  }

  lemma {:induction false} NameEndAfterName(text: string, k: nat, allowed: char -> bool, n: string)
    requires k + |n| < |text|
    requires text[k..k + |n|] == n && text[k + |n|] == '/'
    requires SlashFree(n) && forall c :: c in n ==> allowed(c)
    ensures NameEnd(text, k, allowed) == Some(k + |n|)
    decreases |n|
  {
    if n != "" {
      assert text[k] == n[0];
      assert text[k + 1..k + 1 + |n[1..]|] == n[1..];
      NameEndAfterName(text, k + 1, allowed, n[1..]);
    }
  }

  /** `finditer` from index `p`: try each index in turn; after a match, resume at its end. */
  function FindAll(text: string, p: nat, id: string, allowed: char -> bool): seq<Name>
    requires p <= |text|
    decreases |text| - p
  {
    if p == |text| then
      match MatchAt(text, p, id, allowed) case Some(m) => [m.name] case None => []
    else
      match MatchAt(text, p, id, allowed)
      case Some(m) => [m.name] + FindAll(text, m.end, id, allowed)
      case None => FindAll(text, p + 1, id, allowed)
  }

  /** Every name `finditer` yields comes from a marker at or after `p`, made of allowed characters. */
  lemma {:induction false} FindAllSound(text: string, p: nat, id: string, allowed: char -> bool, n: Name)
    requires p <= |text|
    requires n in FindAll(text, p, id, allowed)
    ensures forall c :: c in n ==> allowed(c)
    ensures exists q :: p <= q <= |text| && MarkerAt(text, q, id, n)
    decreases |text| - p
  {
    var m := MatchAt(text, p, id, allowed);
    if m.Some? && m.value.name == n {
    } else if p < |text| {
      if m.Some? {
        FindAllSound(text, m.value.end, id, allowed, n);
      } else {
        FindAllSound(text, p + 1, id, allowed, n);
      }
    }
  }

  /** A text yields no names exactly when the pattern matches at no index. */
  lemma {:induction false} FindAllEmpty(text: string, p: nat, id: string, allowed: char -> bool)
    requires p <= |text|
    ensures FindAll(text, p, id, allowed) == [] <==>
      forall q :: p <= q <= |text| ==> MatchAt(text, q, id, allowed).None?
    decreases |text| - p
  {
    if p < |text| && MatchAt(text, p, id, allowed).None? {
      FindAllEmpty(text, p + 1, id, allowed);
    }
  }

  /** The first marker of a text is always found, with its name. */
  lemma FirstMarkerFound(text: string, p: nat, id: string, allowed: char -> bool, n: Name)
    requires MarkerAt(text, p, id, n) && forall c :: c in n ==> allowed(c)
    requires forall q :: 0 <= q < p ==> MatchAt(text, q, id, allowed).None?
    ensures |FindAll(text, 0, id, allowed)| > 0 && FindAll(text, 0, id, allowed)[0] == n
  {
    MatchAtComplete(text, p, id, allowed, n);
    FirstMarkerFrom(text, 0, p, id, allowed, n);
  }

  lemma {:induction false} FirstMarkerFrom(text: string, k: nat, p: nat, id: string, allowed: char -> bool, n: Name)
    requires k <= p <= |text|
    requires MatchAt(text, p, id, allowed) == Some(Match(n, p + |id| + |n| + 2))
    requires forall q :: k <= q < p ==> MatchAt(text, q, id, allowed).None?
    ensures |FindAll(text, k, id, allowed)| > 0 && FindAll(text, k, id, allowed)[0] == n
    decreases p - k
  {
    if k < p {
      FirstMarkerFrom(text, k + 1, p, id, allowed, n);
    }
  }

  /** `submoduleslistcheck`: no list admits every name; a list admits its members only. */
  predicate Admits(check: Option<seq<Name>>, n: Name) {
    check.None? || n in check.value
  }

  /** The admitted names one file contributes. */
  function FileNames(text: string, id: string, allowed: char -> bool, check: Option<seq<Name>>): set<Name> {
    set n | n in FindAll(text, 0, id, allowed) && Admits(check, n)
  }

  /** The set `getsubmodules` collects over the listed files; a listed path that is not a
      file (absent from `files`) is skipped (:133-135). */
  function ScanNames(files: map<Path, string>, list: seq<Path>, id: string, allowed: char -> bool,
                     check: Option<seq<Name>>): set<Name>
    decreases |list|
  {
    if list == [] then {}
    else
      var last := list[|list| - 1];
      ScanNames(files, list[..|list| - 1], id, allowed, check)
        + (if last in files then FileNames(files[last], id, allowed, check) else {})
  }

  /** A name is collected exactly when some listed path is an existing file whose text
      yields it and the list check admits it. */
  lemma {:induction false} ScanNamesExact(files: map<Path, string>, list: seq<Path>, id: string,
                                          allowed: char -> bool, check: Option<seq<Name>>, n: Name)
    ensures n in ScanNames(files, list, id, allowed, check) <==>
      (Admits(check, n) &&
       exists i :: 0 <= i < |list| && list[i] in files && n in FindAll(files[list[i]], 0, id, allowed))
    decreases |list|
  {
    if list != [] {
      var init := list[..|list| - 1];
      ScanNamesExact(files, init, id, allowed, check, n);
      if n in ScanNames(files, init, id, allowed, check) {
        var i :| 0 <= i < |init| && init[i] in files && n in FindAll(files[init[i]], 0, id, allowed);
        assert list[i] == init[i];
      }
      if Admits(check, n) {
        forall i | 0 <= i < |list| - 1 ensures list[i] == init[i] { }
      }
    }
  }

  /** Everything collected comes from a marker, with its boundary, in some existing listed
      file, is made of allowed characters, and belongs to the check list when one is given. */
  lemma ScanNamesSound(files: map<Path, string>, list: seq<Path>, id: string,
                       allowed: char -> bool, check: Option<seq<Name>>, n: Name)
    requires n in ScanNames(files, list, id, allowed, check)
    ensures check.Some? ==> n in check.value
    ensures SlashFree(n) && forall c :: c in n ==> allowed(c)
    ensures exists i, q :: 0 <= i < |list| && list[i] in files && MarkerAt(files[list[i]], q, id, n)
  {
    ScanNamesExact(files, list, id, allowed, check, n);
    var i :| 0 <= i < |list| && list[i] in files && n in FindAll(files[list[i]], 0, id, allowed);
    FindAllSound(files[list[i]], 0, id, allowed, n);
  }

  /** The module folder with a trailing `/` (:120-121). */
  function ModuleDir(modulepath: Path): (r: Path)
    requires |modulepath| > 0
    ensures EndsWithSlash(r) && |modulepath| <= |r| <= |modulepath| + 1 && r[..|modulepath|] == modulepath
  {
    if modulepath[|modulepath| - 1] != '/' then modulepath + "/" else modulepath
  }

  /** The files `getsubmodules` reads: the given list, or else the tracked files (the lines
      of `git ls-files`, passed in) inside the module folder (:125-130). */
  function FilesToParse(modulepath: Path, filestoparse: Option<seq<Path>>, tracked: seq<Path>): (r: seq<Path>)
    requires |modulepath| > 0
    ensures filestoparse.Some? ==> r == filestoparse.value
    ensures filestoparse.None? ==> |r| == |tracked|
    ensures filestoparse.None? ==> forall i :: 0 <= i < |r| ==> r[i] == ModuleDir(modulepath) + tracked[i]
  {
    match filestoparse
    case Some(list) => list
    case None => seq(|tracked|, i requires 0 <= i < |tracked| => ModuleDir(modulepath) + tracked[i])
  }

  /** The inner loop at :136-147: the admitted matches of one file. */
  method CollectFile(text: string, id: string, allowed: char -> bool, check: Option<seq<Name>>) returns (found: set<Name>)
    ensures found == FileNames(text, id, allowed, check)
  {
    var matches := FindAll(text, 0, id, allowed);
    found := {};
    for j := 0 to |matches|
      invariant found == set n | n in matches[..j] && Admits(check, n)
    {
      assert Elements(matches[..j + 1]) == Elements(matches[..j]) + {matches[j]};
      if Admits(check, matches[j]) {
        found := found + {matches[j]};
      }
    }
    assert matches[..|matches|] == matches;
  }

  /** `getsubmodules`: the sorted, duplicate-free list of admitted names in the module's files. */
  method GetSubmodules(modulepath: Path, id: string, allowed: char -> bool, filestoparse: Option<seq<Path>>,
                       check: Option<seq<Name>>, files: map<Path, string>, tracked: seq<Path>)
    returns (r: seq<Name>)
    requires |modulepath| > 0
    ensures StrictlySorted(r)
    ensures Elements(r) == ScanNames(files, FilesToParse(modulepath, filestoparse, tracked), id, allowed, check)
  {
    var list := FilesToParse(modulepath, filestoparse, tracked);
    var found: set<Name> := {};
    var i := 0;
    while i < |list|
      invariant 0 <= i <= |list|
      invariant found == ScanNames(files, list[..i], id, allowed, check)
    {
      assert list[..i + 1][..i] == list[..i];
      var filename := list[i];
      if filename in files {
        var names := CollectFile(files[filename], id, allowed, check);
        found := found + names;
      }
      i := i + 1;
    }
    assert list[..i] == list;
    r := SortNames(found);
  }
}
