/** `dosubmodules` (mysubmodules_func.py:340-489). Starting from the root modules, it visits
    one module at a time:
    - it asks the finder for the module's first- and second-class names;
    - it reconciles the module's `submodules/` folder with the first-class names;
    - it adds each first-class name below the module and each new second-class name below
      the root, pushing every added module it should scan onto the front of the worklist;
    - at the end it prunes each root's `submodules2/` folder to the names accumulated for it.
    The finder and the adder are parameters, as in the source. */
module Orchestrator {
  import opened Names
  import opened Paths
  import opened Files

  // ---------------------------------------------------------------------------------------
  // The self-nesting guard (:429-440).

  /** Python's `s[start:]`. */
  function From(s: string, start: nat): string {
    if start <= |s| then s[start..] else ""
  }

  /** `elementsinmodulepath` as written: the slice starts after `dirname(root) + '/'`, which
      is one character too far when that dirname is empty or `/`. */
  function ComponentsAsWritten(modulepath: Path, overall: Path): seq<string> {
    SplitOnSlash(From(modulepath, |Dirname(Canon(overall)) + "/"|))
  }

  /** The path components of `modulepath` below the root's parent folder, the root's own name
      first (the intent the comment at :429 states): the slice starts after
      `os.path.join(dirname(root), '')`. */
  function Components(modulepath: Path, overall: Path): seq<string> {
    SplitOnSlash(From(modulepath, |Join(Dirname(Canon(overall)), "")|))
  }

  /** The pieces of a tail that is empty or starts with a separator, after a leading name. */
  function PiecesBelow(tail: string): seq<string> {
    if tail == "" then [] else SplitOnSlash(tail[1..])
  }

  lemma SplitAfterName(x: string, tail: string)
    requires SlashFree(x) && (tail == "" || tail[0] == '/')
    ensures SplitOnSlash(x + tail) == [x] + PiecesBelow(tail)
  {
    if tail == "" {
      assert x + tail == x;
    } else {
      assert x + tail == x + "/" + tail[1..];
      SplitOnSlashConcat(x, tail[1..]);
    }
  }

  /** For a relative root `r` the as-written components start with `r` minus its first
      character, and the corrected ones with `r`. */
  lemma AsWrittenRelativeRoot(r: Name, tail: string)
    requires r != "" && SlashFree(r) && (tail == "" || tail[0] == '/')
    ensures ComponentsAsWritten(r + tail, r) == [r[1..]] + PiecesBelow(tail)
    ensures Components(r + tail, r) == [r] + PiecesBelow(tail)
  {
    assert Canon(r) == r;
    assert Dirname(r) == "";
    assert (r + tail)[1..] == r[1..] + tail;
    assert From(r + tail, 1) == r[1..] + tail;
    assert (r + tail)[0..] == r + tail;
    assert From(r + tail, 0) == r + tail;
    SplitAfterName(r[1..], tail);
    SplitAfterName(r, tail);
  }

  /** For a root `/r` directly below `/` the as-written slice starts after `//`, again one
      character into the root's name. */
  lemma AsWrittenTopRoot(r: Name, tail: string)
    requires r != "" && SlashFree(r) && (tail == "" || tail[0] == '/')
    ensures ComponentsAsWritten("/" + r + tail, "/" + r) == [r[1..]] + PiecesBelow(tail)
    ensures Components("/" + r + tail, "/" + r) == [r] + PiecesBelow(tail)
  {
    var root := "/" + r;
    assert Canon(root) == root;
    LastSlashAfterSeparator("/", r);
    assert root[..1] == "/";
    assert OnlySlashes("/");
    assert Dirname(root) == "/";
    assert |Dirname(root) + "/"| == 2;
    assert |Join(Dirname(root), "")| == 1;
    assert ("/" + r + tail)[2..] == r[1..] + tail;
    assert ("/" + r + tail)[1..] == r + tail;
    SplitAfterName(r[1..], tail);
    SplitAfterName(r, tail);
  }

  /** A concrete case: at the relative root `proj` itself a first-class module `proj` passes
      the as-written guard, and the corrected guard refuses it. */
  lemma AsWrittenComponentsMissRoot()
    ensures "proj" !in ComponentsAsWritten("proj", "proj")
    ensures "proj" in Components("proj", "proj")
  {
    AsWrittenRelativeRoot("proj", "");
    assert "proj"[1..] == "roj";
  }

  /** The root holds its name after a folder path `a` that is empty, `/`, or ends in a single
      separator. */
  predicate PlainRoot(overall: Path) {
    var rs := Canon(overall);
    var b := Basename(rs);
    var a := rs[..|rs| - |b|];
    b != "" && (a == "" || a == "/" || (|a| >= 2 && a[|a| - 2] != '/'))
  }

  lemma BasenameSplit(rs: Path)
    ensures var b := Basename(rs); var a := rs[..|rs| - |b|];
      rs == a + b && (a == "" || EndsWithSlash(a))
      && (a == "" <==> LastSlash(rs).None?)
      && (a != "" ==> LastSlash(rs) == Some(|a| - 1))
  {
    match LastSlash(rs)
    case None =>
    case Some(i) =>
      assert rs == rs[..i + 1] + rs[i + 1..];
  }

  lemma RStripOnce(a: string)
    requires |a| >= 2 && a[|a| - 1] == '/' && a[|a| - 2] != '/'
    ensures RStripSlashes(a) == a[..|a| - 1]
  {
  }

  lemma DirnameOfFolder(rs: Path, a: string, b: string)
    requires rs == a + b && SlashFree(b)
    requires |a| >= 2 && a[|a| - 1] == '/' && a[|a| - 2] != '/'
    ensures Dirname(rs) == a[..|a| - 1]
  {
    LastSlashAfterSeparator(a, b);
    assert rs[..|a| - 1 + 1] == a;
    assert 0 <= |a| - 2 < |a| && a[|a| - 2] != '/';
    RStripOnce(a);
  }

  lemma DirnameOfTop(rs: Path, b: string)
    requires rs == "/" + b && SlashFree(b)
    ensures Dirname(rs) == "/"
  {
    LastSlashAfterSeparator("/", b);
    assert rs[..1] == "/";
    assert OnlySlashes("/");
  }

  /** For a path `a + b` with `b` its basename and `a` a plain folder path, the corrected
      slice starts right after `a`. */
  lemma PlainRootPrefix(rs: Path, a: string, b: string)
    requires rs == a + b && SlashFree(b) && (a == "" || EndsWithSlash(a))
    requires a == "" || a == "/" || (|a| >= 2 && a[|a| - 2] != '/')
    ensures |Join(Dirname(rs), "")| == |a|
  {
    if a == "" {
      assert SlashFree(rs);
      assert Dirname(rs) == "";
    } else if a == "/" {
      DirnameOfTop(rs, b);
    } else {
      DirnameOfFolder(rs, a, b);
      assert Join(a[..|a| - 1], "") == a;
    }
  }

  lemma DropPrefix(a: string, b: string, t: string)
    ensures ((a + b) + t)[|a|..] == b + t
  {
  }

  /** The corrected components are the pieces of the module path after the slice start. */
  lemma ComponentsAt(modulepath: Path, overall: Path, j: nat)
    requires |Join(Dirname(Canon(overall)), "")| == j <= |modulepath|
    ensures Components(modulepath, overall) == SplitOnSlash(modulepath[j..])
  {
  }

  /** The corrected components of a module path inside a plain root start with the root's
      name and continue with the components below it. */
  lemma ComponentsStartAtRoot(overall: Path, tail: string)
    requires PlainRoot(overall)
    requires tail == "" || tail[0] == '/'
    ensures Components(Canon(overall) + tail, overall) == [Basename(Canon(overall))] + PiecesBelow(tail)
  {
    var rs := Canon(overall);
    var b := Basename(rs);
    var a := rs[..|rs| - |b|];
    BasenameSplit(rs);
    PlainRootPrefix(rs, a, b);
    var mp := rs + tail;
    DropPrefix(a, b, tail);
    ComponentsAt(mp, overall, |a|);
    SplitAfterName(b, tail);
  }

  /** The first-class names the guard lets through (:436-440): those that are not a
      component of the module's path. */
  function Unguarded(first: seq<Name>, comps: seq<string>): (r: seq<Name>)
    ensures forall x :: x in r <==> x in first && x !in comps
    ensures |r| <= |first|
  {
    if first == [] then []
    else (if first[0] in comps then [] else [first[0]]) + Unguarded(first[1..], comps)
  }

  /** Below a plain root, the guard refuses a first-class module named like the root and every
      name that is already a component of the module's path, so no module is added inside a
      folder of its own name. */
  lemma GuardRefusesAncestors(first: seq<Name>, overall: Path, tail: string)
    requires PlainRoot(overall)
    requires tail == "" || tail[0] == '/'
    ensures var allowed := Unguarded(first, Components(Canon(overall) + tail, overall));
      && Basename(Canon(overall)) !in allowed
      && forall x :: x in PiecesBelow(tail) ==> x !in allowed
  {
    ComponentsStartAtRoot(overall, tail);
  }

  // ---------------------------------------------------------------------------------------
  // One visit.

  /** A worklist entry: the module's path and the root module it belongs to (:355). */
  datatype Task = Task(path: Path, root: Path)

  /** The parameters of a run: `submodulename1`, `submodulename2`, `modulescansearchlist`,
      and `findsubmodulefunc` and `addsubmodulefunc` as `find` and `add`. The finder answers
      from the module path alone, `None` where it raises, which nothing catches (:383); the
      adder may change the filesystem in any way and report that it raised, which the source
      catches. */
  datatype Config = Config(id1: Name, id2: Name, search: Option<seq<Name>>,
                           find: Path -> Option<(seq<Name>, seq<Name>)>, add: (Nodes, Path, Name, Name) -> Step)

  /** The finder's answer for a module it returns on (only read after it returned). */
  function Found(cfg: Config, p: Path): (seq<Name>, seq<Name>) {
    if cfg.find(p).Some? then cfg.find(p).value else ([], [])
  }

  /** An added module is scanned further when there is no search list or it is on it. */
  predicate Searchable(search: Option<seq<Name>>, x: Name) {
    search.None? || x in search.value
  }

  /** The second-class names collected so far for a root (`submodules2dictoverall`). */
  function AccOf(acc: map<Path, set<Name>>, r: Path): set<Name> {
    if r in acc then acc[r] else {}
  }

  /** The second-class names a visit adds (:387-391 as evidently intended): each name not yet
      collected for the root, once, in the finder's order. */
  function NewNames(acc: set<Name>, second: seq<Name>): seq<Name>
    decreases |second|
  {
    if second == [] then []
    else
      var d := NewNames(acc, second[..|second| - 1]);
      var x := second[|second| - 1];
      if x in acc || x in d then d else d + [x]
  }

  /** The new names are exactly the names not collected before, each once. */
  lemma {:induction false} NewNamesSpec(acc: set<Name>, second: seq<Name>)
    ensures Elements(NewNames(acc, second)) == Elements(second) - acc
    ensures Distinct(NewNames(acc, second))
    decreases |second|
  {
    if second != [] {
      var init := second[..|second| - 1];
      var x := second[|second| - 1];
      var d := NewNames(acc, init);
      NewNamesSpec(acc, init);
      assert second == init + [x];
      assert Elements(second) == Elements(init) + {x};
      if !(x in acc || x in d) {
        assert forall i :: 0 <= i < |d| ==> (d + [x])[i] == d[i];
        assert Elements(d + [x]) == Elements(d) + {x};
      }
    }
  }

  /** The collection loop (:387-391 as evidently intended). */
  method NewSecondNames(acc: set<Name>, second: seq<Name>) returns (donow: seq<Name>, collected: set<Name>)
    ensures donow == NewNames(acc, second)
    ensures collected == acc + Elements(second)
  {
    donow := [];
    collected := acc;
    for i := 0 to |second|
      invariant donow == NewNames(acc, second[..i])
      invariant collected == acc + Elements(second[..i])
    {
      NewNamesSpec(acc, second[..i]);
      assert second[..i + 1][..i] == second[..i];
      assert second[..i + 1] == second[..i] + [second[i]];
      assert Elements(second[..i + 1]) == Elements(second[..i]) + {second[i]};
      assert second[i] in collected <==> second[i] in acc || second[i] in Elements(donow);
      if second[i] !in collected {
        donow := donow + [second[i]];
      }
      collected := collected + {second[i]};
    }
    assert second[..|second|] == second;
  }

  /** The collection loop as written: a name not yet collected reaches the misspelt
      `submodulels2dictoverall` and raises `NameError`, which nothing catches (`None`). */
  function AsWrittenNewNames(acc: set<Name>, second: seq<Name>): Option<seq<Name>> {
    if forall i :: 0 <= i < |second| ==> second[i] in acc then Some([]) else None
  }

  /** The as-written loop raises exactly when the intended one would add something; in
      particular on the first visit of a root whose module names any second-class module. */
  lemma AsWrittenNewNamesRaises(acc: set<Name>, second: seq<Name>)
    ensures AsWrittenNewNames(acc, second).None? <==> NewNames(acc, second) != []
    ensures second != [] ==> AsWrittenNewNames({}, second).None?
  {
    NewNamesSpec(acc, second);
    NewNamesSpec({}, second);
    if second != [] {
      assert second[0] in Elements(second);
    }
    if AsWrittenNewNames(acc, second).None? {
      var i :| 0 <= i < |second| && second[i] !in acc;
      assert second[i] in Elements(second) - acc;
    } else {
      assert Elements(second) - acc == {};
    }
  }

  /** Reconciling `k` = `modulepath/submodules` with the first-class names (:405-420): with
      none, `k` is deleted; otherwise anything at `k` that is not a directory is deleted, the
      directory is made (which may raise) and every child not named is deleted. */
  ghost function Reconcile(n: Nodes, k: Path, names: seq<Name>): Step {
    if names == [] then Step(if Present(n, k) then Removed(n, Canon(k)) else n, true)
    else if DirIn(n, k) then Step(Pruned(n, Canon(k), Elements(names)), true)
    else
      var m := if Present(n, k) then Removed(n, Canon(k)) else n;
      if CanMkdir(m, k) then Step(Pruned(m[Canon(k) := Dir], Canon(k), Elements(names)), true)
      else Step(m, false)
  }

  /** Without first-class names the folder is gone; with some it is a directory holding only
      named children, and a folder that was already a directory keeps each named child it
      had; only a directory that cannot be made raises. Nothing outside the folder changes
      either way. */
  lemma ReconcileOutcome(n: Nodes, k: Path, names: seq<Name>)
    ensures var s := Reconcile(n, k, names);
      && (names == [] ==> s.ok && (!RootPath(k) ==> !Present(s.nodes, k)))
      && (s.ok && names != [] ==> DirIn(s.nodes, k) && Children(s.nodes, Canon(k)) <= Elements(names))
      && (DirIn(n, k) && names != [] ==> s.ok && Children(s.nodes, Canon(k)) == Children(n, Canon(k)) * Elements(names))
      && (!s.ok ==> names != [] && !DirIn(n, k) && !Present(s.nodes, k))
      && (forall p :: p in n && !Under(p, Canon(k)) ==> p in s.nodes && s.nodes[p] == n[p])
  {
    var c := Canon(k);
    RemovedSubtree(n, c);
    if names != [] {
      if DirIn(n, k) {
        PrunedChildren(n, c, Elements(names));
      } else {
        var m := if Present(n, k) then Removed(n, c) else n;
        PrunedChildren(m[c := Dir], c, Elements(names));
      }
    }
  }

  /** The reconciliation as the source does it, on the filesystem. */
  method ReconcileFolder(fs: FileSystem, k: Path, names: seq<Name>) returns (ok: bool)
    modifies fs
    ensures Step(fs.nodes, ok) == Reconcile(old(fs.nodes), k, names)
  {
    if |names| == 0 {
      if fs.Exists(k) {
        fs.RmRecursive(k);
      }
      return true;
    }
    if !fs.IsDir(k) {
      if fs.Exists(k) {
        fs.RmRecursive(k);
      }
      ok := fs.Mkdir(k);
      if !ok {
        return;
      }
    }
    fs.PruneChildren(k, Elements(names));
    ok := true;
  }

  /** Making the root's `submodules2` folder when there are new second-class names and it
      is not a directory (:423-425); `os.mkdir` raises when something is in the way or the
      parent is missing. */
  function EnsureSecond(n: Nodes, k2: Path, donow: seq<Name>): Step {
    if donow != [] && !DirIn(n, k2) then
      if CanMkdir(n, k2) then Step(n[Canon(k2) := Dir], true) else Step(n, false)
    else Step(n, true)
  }

  /** After a normal return the folder is a directory whenever there are new names, and at
      most that folder was added; it raises exactly for new names with a file in the way or no
      parent directory. */
  lemma EnsureSecondOutcome(n: Nodes, k2: Path, donow: seq<Name>)
    ensures var s := EnsureSecond(n, k2, donow);
      && (s.ok && donow != [] ==> DirIn(s.nodes, k2))
      && (s.ok ==> forall p :: p != Canon(k2) ==> (p in s.nodes <==> p in n) && (p in n ==> s.nodes[p] == n[p]))
      && (!s.ok <==> donow != [] && !DirIn(n, k2) && (Canon(k2) in n || Canon(k2) == "" || !ParentIsDir(n, Canon(k2))))
      && (!s.ok ==> s.nodes == n)
  {
  }

  method EnsureSecondFolder(fs: FileSystem, k2: Path, donow: seq<Name>) returns (ok: bool)
    modifies fs
    ensures Step(fs.nodes, ok) == EnsureSecond(old(fs.nodes), k2, donow)
  {
    ok := true;
    if |donow| > 0 && !fs.IsDir(k2) {
      ok := fs.Mkdir(k2);
    }
  }

  /** The state an adding loop leaves: the filesystem, whether each call returned normally,
      and the tasks it pushed, the last pushed first (the new front of the worklist). */
  datatype Added = Added(nodes: Nodes, tries: seq<bool>, front: seq<Task>)

  /** An adding loop (:436-452 and :456-467): the adder is called for every name in turn,
      after a failure too; each module it added and that is to be scanned is pushed onto the
      front of the worklist. */
  function AddEach(n: Nodes, parent: Path, id: Name, names: seq<Name>, root: Path, cfg: Config): Added
    decreases |names|
  {
    if names == [] then Added(n, [], [])
    else
      var a := AddEach(n, parent, id, names[..|names| - 1], root, cfg);
      var x := names[|names| - 1];
      var s := cfg.add(a.nodes, parent, id, x);
      var front := if s.ok && Searchable(cfg.search, x) then [Task(Join(Join(parent, id), x), root)] + a.front else a.front;
      Added(s.nodes, a.tries + [s.ok], front)
  }

  /** Every name is tried, each on the filesystem the previous call left, a failure not
      stopping the names after it. */
  lemma {:induction false} AddEachTries(n: Nodes, parent: Path, id: Name, names: seq<Name>, root: Path, cfg: Config)
    ensures var a := AddEach(n, parent, id, names, root, cfg);
      && |a.tries| == |names|
      && (forall i :: 0 <= i < |names| ==>
            a.tries[i] == cfg.add(AddEach(n, parent, id, names[..i], root, cfg).nodes, parent, id, names[i]).ok)
    decreases |names|
  {
    if names != [] {
      var init := names[..|names| - 1];
      var last := |names| - 1;
      var a0 := AddEach(n, parent, id, init, root, cfg);
      var a := AddEach(n, parent, id, names, root, cfg);
      AddEachTries(n, parent, id, init, root, cfg);
      assert a.tries == a0.tries + [cfg.add(a0.nodes, parent, id, names[last]).ok];
      assert names[..last] == init;
      forall i | 0 <= i < |names|
        ensures a.tries[i] == cfg.add(AddEach(n, parent, id, names[..i], root, cfg).nodes, parent, id, names[i]).ok
      {
        if i < last {
          assert names[..i] == init[..i] && names[i] == init[i];
          assert a.tries[i] == a0.tries[i];
        }
      }
    }
  }

  /** A module is pushed exactly when its call returned normally and it is to be scanned. */
  lemma {:induction false} AddEachFront(n: Nodes, parent: Path, id: Name, names: seq<Name>, root: Path, cfg: Config)
    ensures var a := AddEach(n, parent, id, names, root, cfg);
      forall t :: t in a.front <==> exists i :: Pushes(a, parent, id, names, root, cfg, i, t)
    decreases |names|
  {
    if names != [] {
      var init := names[..|names| - 1];
      var a0 := AddEach(n, parent, id, init, root, cfg);
      var a := AddEach(n, parent, id, names, root, cfg);
      AddEachFront(n, parent, id, init, root, cfg);
      AddEachTries(n, parent, id, init, root, cfg);
      var last := |names| - 1;
      assert a.tries == a0.tries + [a.tries[last]];
      forall t | t in a.front
        ensures exists i :: Pushes(a, parent, id, names, root, cfg, i, t)
      {
        if t in a0.front {
          var i :| Pushes(a0, parent, id, init, root, cfg, i, t);
          assert Pushes(a, parent, id, names, root, cfg, i, t);
        } else {
          assert Pushes(a, parent, id, names, root, cfg, last, t);
        }
      }
      forall t, i | Pushes(a, parent, id, names, root, cfg, i, t)
        ensures t in a.front
      {
        if i < last {
          assert Pushes(a0, parent, id, init, root, cfg, i, t);
        }
      }
    }
  }

  /** The `i`-th call of an adding loop pushed `t`. */
  predicate Pushes(a: Added, parent: Path, id: Name, names: seq<Name>, root: Path, cfg: Config, i: int, t: Task) {
    0 <= i < |names| && i < |a.tries| && a.tries[i] && Searchable(cfg.search, names[i])
    && t == Task(Join(Join(parent, id), names[i]), root)
  }

  /** The adding loop on the filesystem. The adder's effect is applied as it reports it. */
  method AddNames(fs: FileSystem, parent: Path, id: Name, names: seq<Name>, root: Path, cfg: Config)
    returns (front: seq<Task>, ghost tries: seq<bool>)
    modifies fs
    ensures Added(fs.nodes, tries, front) == AddEach(old(fs.nodes), parent, id, names, root, cfg)
  {
    ghost var n0 := fs.nodes;
    front := [];
    tries := [];
    for i := 0 to |names|
      invariant Added(fs.nodes, tries, front) == AddEach(n0, parent, id, names[..i], root, cfg)
    {
      assert names[..i + 1][..i] == names[..i];
      var s := cfg.add(fs.nodes, parent, id, names[i]);
      fs.nodes := s.nodes;
      tries := tries + [s.ok];
      if s.ok && Searchable(cfg.search, names[i]) {
        front := [Task(Join(Join(parent, id), names[i]), root)] + front;
      }
    }
    assert names[..|names|] == names;
  }

  /** The worklist, the filesystem and the collected second-class names between visits. */
  datatype World = World(nodes: Nodes, todo: seq<Task>, acc: map<Path, set<Name>>)

  /** A visit either ends normally or raises at a path, leaving the filesystem as it was then. */
  datatype Visit = Visited(w: World) | VisitRaised(nodes: Nodes, at: Path)

  /** One iteration of the main loop (:364-467) for the task `t` taken off the front of the
      worklist, `rest` being what remains of it; a finder that raises (:383) stops the run
      there with the filesystem untouched. The module's name (:367-370) only keys
      dictionaries that are rebuilt every iteration, so it has no effect. */
  ghost function VisitTask(n: Nodes, acc: map<Path, set<Name>>, rest: seq<Task>, t: Task, cfg: Config): Visit {
    if cfg.find(t.path).None? then VisitRaised(n, t.path)
    else
      var found := cfg.find(t.path).value;
      var donow := NewNames(AccOf(acc, t.root), found.1);
      var k1 := Join(t.path, cfg.id1);
      var r1 := Reconcile(n, k1, found.0);
      if !r1.ok then VisitRaised(r1.nodes, k1)
      else
        var k2 := Join(t.root, cfg.id2);
        var r2 := EnsureSecond(r1.nodes, k2, donow);
        if !r2.ok then VisitRaised(r2.nodes, k2)
        else Visited(AddPhase(r2.nodes, acc, rest, t, cfg))
  }

  /** The two adding loops of a visit (:436-467), from the filesystem the folder
      preparation left. */
  function AddPhase(n: Nodes, acc: map<Path, set<Name>>, rest: seq<Task>, t: Task, cfg: Config): World {
    var found := Found(cfg, t.path);
    var donow := NewNames(AccOf(acc, t.root), found.1);
    var a1 := AddEach(n, t.path, cfg.id1, Unguarded(found.0, Components(t.path, t.root)), t.root, cfg);
    var a2 := AddEach(a1.nodes, t.root, cfg.id2, donow, t.root, cfg);
    World(a2.nodes, a2.front + a1.front + rest, acc[t.root := AccOf(acc, t.root) + Elements(found.1)])
  }

  /** A module pushed by a visit of `t`: a first-class name the guard let through, below the
      module, or a new second-class name, below the root; in both cases the adder returned
      normally and the name is to be scanned. */
  ghost predicate ChildTask(u: Task, t: Task, acc: map<Path, set<Name>>, cfg: Config) {
    var found := Found(cfg, t.path);
    u.root == t.root && exists x :: Searchable(cfg.search, x) && (FirstChild(u, t, found.0, x, cfg) || SecondChild(u, t, found.1, AccOf(acc, t.root), x, cfg))
  }

  predicate FirstChild(u: Task, t: Task, first: seq<Name>, x: Name, cfg: Config) {
    x in first && x !in Components(t.path, t.root) && u.path == Join(Join(t.path, cfg.id1), x)
  }

  predicate SecondChild(u: Task, t: Task, second: seq<Name>, acc: set<Name>, x: Name, cfg: Config) {
    x in second && x !in acc && u.path == Join(Join(t.root, cfg.id2), x)
  }

  /** Every module the first-class loop pushes is a first-class child of `t`. */
  lemma FirstFront(n: Nodes, t: Task, first: seq<Name>, cfg: Config)
    ensures var a := AddEach(n, t.path, cfg.id1, Unguarded(first, Components(t.path, t.root)), t.root, cfg);
      forall u :: u in a.front ==> u.root == t.root && exists x :: Searchable(cfg.search, x) && FirstChild(u, t, first, x, cfg)
  {
    var guarded := Unguarded(first, Components(t.path, t.root));
    var a := AddEach(n, t.path, cfg.id1, guarded, t.root, cfg);
    AddEachFront(n, t.path, cfg.id1, guarded, t.root, cfg);
    forall u | u in a.front
      ensures u.root == t.root && exists x :: Searchable(cfg.search, x) && FirstChild(u, t, first, x, cfg)
    {
      var i :| Pushes(a, t.path, cfg.id1, guarded, t.root, cfg, i, u);
      assert guarded[i] in guarded;
      assert FirstChild(u, t, first, guarded[i], cfg);
    }
  }

  /** Every module the second-class loop pushes is a new second-class child of the root. */
  lemma SecondFront(n: Nodes, t: Task, second: seq<Name>, acc: set<Name>, cfg: Config)
    ensures var a := AddEach(n, t.root, cfg.id2, NewNames(acc, second), t.root, cfg);
      forall u :: u in a.front ==> u.root == t.root && exists x :: Searchable(cfg.search, x) && SecondChild(u, t, second, acc, x, cfg)
  {
    var donow := NewNames(acc, second);
    var a := AddEach(n, t.root, cfg.id2, donow, t.root, cfg);
    AddEachFront(n, t.root, cfg.id2, donow, t.root, cfg);
    NewNamesSpec(acc, second);
    forall u | u in a.front
      ensures u.root == t.root && exists x :: Searchable(cfg.search, x) && SecondChild(u, t, second, acc, x, cfg)
    {
      var i :| Pushes(a, t.root, cfg.id2, donow, t.root, cfg, i, u);
      assert donow[i] in Elements(donow);
      assert SecondChild(u, t, second, acc, donow[i], cfg);
    }
  }

  /** The adding loops put the modules they pushed in front of the rest of the worklist, keep
      the rest in order, and collect every second-class name the module names. */
  lemma AddPhasePushesFront(n: Nodes, acc: map<Path, set<Name>>, rest: seq<Task>, t: Task, cfg: Config)
    ensures var w := AddPhase(n, acc, rest, t, cfg);
      && |w.todo| >= |rest| && w.todo[|w.todo| - |rest|..] == rest
      && (forall j :: 0 <= j < |w.todo| - |rest| ==> ChildTask(w.todo[j], t, acc, cfg))
      && (forall j :: 0 <= j < |w.todo| - |rest| ==> w.todo[j].root == t.root)
      && w.acc.Keys == acc.Keys + {t.root}
      && AccOf(w.acc, t.root) == AccOf(acc, t.root) + Elements(Found(cfg, t.path).1)
  {
    var found := Found(cfg, t.path);
    var donow := NewNames(AccOf(acc, t.root), found.1);
    var a1 := AddEach(n, t.path, cfg.id1, Unguarded(found.0, Components(t.path, t.root)), t.root, cfg);
    var a2 := AddEach(a1.nodes, t.root, cfg.id2, donow, t.root, cfg);
    var w := AddPhase(n, acc, rest, t, cfg);
    assert w == World(a2.nodes, a2.front + a1.front + rest, acc[t.root := AccOf(acc, t.root) + Elements(found.1)]);
    FirstFront(n, t, found.0, cfg);
    SecondFront(a1.nodes, t, found.1, AccOf(acc, t.root), cfg);
    FrontsAreChildren(a2.front, a1.front, rest, t, acc, cfg);
  }

  lemma FrontsAreChildren(f2: seq<Task>, f1: seq<Task>, rest: seq<Task>, t: Task, acc: map<Path, set<Name>>, cfg: Config)
    requires forall u :: u in f1 ==> u.root == t.root && exists x :: Searchable(cfg.search, x) && FirstChild(u, t, Found(cfg, t.path).0, x, cfg)
    requires forall u :: u in f2 ==>
      (u.root == t.root && exists x :: Searchable(cfg.search, x) && SecondChild(u, t, Found(cfg, t.path).1, AccOf(acc, t.root), x, cfg))
    ensures var todo := f2 + f1 + rest;
      && todo[|todo| - |rest|..] == rest
      && (forall j :: 0 <= j < |todo| - |rest| ==> ChildTask(todo[j], t, acc, cfg))
      && (forall j :: 0 <= j < |todo| - |rest| ==> todo[j].root == t.root)
  {
    var todo := f2 + f1 + rest;
    forall j | 0 <= j < |todo| - |rest|
      ensures ChildTask(todo[j], t, acc, cfg)
    {
      if j >= |f2| {
        assert todo[j] == f1[j - |f2|];
        assert todo[j] in f1;
      } else {
        assert todo[j] == f2[j];
        assert todo[j] in f2;
      }
    }
  }

  /** What a run can end in: normally, with a root that is not a directory (the preflight
      `ValueError`), with an exception raised at a path, or when the fuel ran out. */
  datatype Outcome = Done | RootMissing(path: Path) | Raised(path: Path) | OutOfFuel

  /** The main loop between turns: still running, or stopped with an outcome. */
  datatype Phase = Running(w: World) | Halted(w: World, out: Outcome)

  /** One turn of the main loop (:364-467) from a running state: stop when the worklist is
      empty, otherwise visit the task at its front. */
  ghost function Move(w: World, cfg: Config): Phase {
    if w.todo == [] then Halted(w, Done)
    else
      match VisitTask(w.nodes, w.acc, w.todo[1..], w.todo[0], cfg)
      case VisitRaised(m, at) => Halted(World(m, w.todo, w.acc), Raised(at))
      case Visited(next) => Running(next)
  }

  /** The loop after `k` turns. */
  ghost function Turns(w0: World, cfg: Config, k: nat): Phase
    decreases k, 2
  {
    if k == 0 then Running(w0) else After(w0, cfg, k - 1)
  }

  /** The loop after turn `j + 1`; a stopped loop stays as it is. */
  ghost function After(w0: World, cfg: Config, j: nat): Phase
    decreases j + 1, 1
  {
    var s := Turns(w0, cfg, j);
    if s.Halted? then s else Next(w0, cfg, j)
  }

  /** Turn `j + 1` taken from the running state after `j` turns. */
  ghost function Next(w0: World, cfg: Config, j: nat): Phase
    decreases j + 1, 0
  {
    Move(Turns(w0, cfg, j).w, cfg)
  }

  /** The main loop, for at most `fuel` visits: the worklist need not run dry, since the
      finder may keep naming new modules. */
  ghost function Loop(w0: World, cfg: Config, fuel: nat): (World, Outcome) {
    match Turns(w0, cfg, fuel)
    case Halted(w, out) => (w, out)
    case Running(w) => (w, if w.todo == [] then Done else OutOfFuel)
  }

  /** A running loop takes its next turn from the state it is in. */
  lemma TurnTaken(w0: World, cfg: Config, k: nat, w: World)
    requires Turns(w0, cfg, k) == Running(w)
    ensures Turns(w0, cfg, k + 1) == Move(w, cfg)
  {
    assert After(w0, cfg, k) == Next(w0, cfg, k) == Move(w, cfg);
  }

  /** A stopped loop takes no further turn. */
  lemma HaltedTurn(w0: World, cfg: Config, j: nat)
    requires Turns(w0, cfg, j).Halted?
    ensures Turns(w0, cfg, j + 1) == Turns(w0, cfg, j)
  {
    assert After(w0, cfg, j) == Turns(w0, cfg, j);
  }

  /** Once the loop has stopped it stays stopped. */
  lemma {:induction false} HaltedStays(w0: World, cfg: Config, j: nat, k: nat)
    requires j <= k && Turns(w0, cfg, j).Halted?
    ensures Turns(w0, cfg, k) == Turns(w0, cfg, j)
    decreases k
  {
    if j < k {
      HaltedStays(w0, cfg, j, k - 1);
      HaltedTurn(w0, cfg, k - 1);
    }
  }

  /** Every task belongs to a root that has an entry in the second-level record, and only
      the roots have one. */
  predicate KnownRoots(w: World, roots: seq<Path>) {
    w.acc.Keys == Elements(roots) && forall j :: 0 <= j < |w.todo| ==> w.todo[j].root in roots
  }

  /** A visit that ends normally is its adding loops, run on some filesystem. */
  lemma VisitedIsAddPhase(n: Nodes, acc: map<Path, set<Name>>, rest: seq<Task>, t: Task, cfg: Config)
    ensures VisitTask(n, acc, rest, t, cfg).Visited? ==>
      exists m :: VisitTask(n, acc, rest, t, cfg).w == AddPhase(m, acc, rest, t, cfg)
  {
    var v := VisitTask(n, acc, rest, t, cfg);
    if v.Visited? {
      var found := Found(cfg, t.path);
      var donow := NewNames(AccOf(acc, t.root), found.1);
      var r1 := Reconcile(n, Join(t.path, cfg.id1), found.0);
      var r2 := EnsureSecond(r1.nodes, Join(t.root, cfg.id2), donow);
      assert v.w == AddPhase(r2.nodes, acc, rest, t, cfg);
    }
  }

  /** The adding loops of a visit of a task with a known root keep every task's root known. */
  lemma AddPhaseKeepsRoots(n: Nodes, w: World, roots: seq<Path>, cfg: Config)
    requires KnownRoots(w, roots) && w.todo != []
    ensures KnownRoots(AddPhase(n, w.acc, w.todo[1..], w.todo[0], cfg), roots)
  {
    AddPhasePushesFront(n, w.acc, w.todo[1..], w.todo[0], cfg);
    FrontKeepsRoots(AddPhase(n, w.acc, w.todo[1..], w.todo[0], cfg), w, roots);
  }

  /** A worklist made of tasks with the first task's root in front of the rest keeps every
      root known. */
  lemma FrontKeepsRoots(w': World, w: World, roots: seq<Path>)
    requires KnownRoots(w, roots) && w.todo != []
    requires |w'.todo| >= |w.todo| - 1 && w'.todo[|w'.todo| - (|w.todo| - 1)..] == w.todo[1..]
    requires forall j :: 0 <= j < |w'.todo| - (|w.todo| - 1) ==> w'.todo[j].root == w.todo[0].root
    requires w'.acc.Keys == w.acc.Keys + {w.todo[0].root}
    ensures KnownRoots(w', roots)
  {
    var rest := w.todo[1..];
    forall j | 0 <= j < |w'.todo|
      ensures w'.todo[j].root in roots
    {
      if j >= |w'.todo| - |rest| {
        assert w'.todo[j] == rest[j - (|w'.todo| - |rest|)];
      }
    }
  }

  /** A visit of a task with a known root keeps every task's root known. */
  lemma VisitKeepsRoots(w: World, roots: seq<Path>, cfg: Config)
    requires KnownRoots(w, roots) && w.todo != []
    ensures var v := VisitTask(w.nodes, w.acc, w.todo[1..], w.todo[0], cfg);
      v.Visited? ==> KnownRoots(v.w, roots)
  {
    var v := VisitTask(w.nodes, w.acc, w.todo[1..], w.todo[0], cfg);
    if v.Visited? {
      VisitedIsAddPhase(w.nodes, w.acc, w.todo[1..], w.todo[0], cfg);
      var m :| v.w == AddPhase(m, w.acc, w.todo[1..], w.todo[0], cfg);
      AddPhaseKeepsRoots(m, w, roots, cfg);
    }
  }

  /** Every turn keeps every task with a known root and creates no other entry. */
  lemma {:induction false} TurnsKeepRoots(w0: World, roots: seq<Path>, cfg: Config, k: nat)
    requires KnownRoots(w0, roots)
    ensures KnownRoots(Turns(w0, cfg, k).w, roots)
    decreases k
  {
    if k > 0 {
      TurnsKeepRoots(w0, roots, cfg, k - 1);
      var s := Turns(w0, cfg, k - 1);
      if s.Running? {
        TurnTaken(w0, cfg, k - 1, s.w);
        if s.w.todo != [] {
          VisitKeepsRoots(s.w, roots, cfg);
        }
      } else {
        HaltedStays(w0, cfg, k - 1, k);
      }
    }
  }

  /** So does the whole loop. */
  lemma LoopKeepsRoots(w0: World, roots: seq<Path>, cfg: Config, fuel: nat)
    requires KnownRoots(w0, roots)
    ensures KnownRoots(Loop(w0, cfg, fuel).0, roots)
  {
    TurnsKeepRoots(w0, roots, cfg, fuel);
  }

  /** A name `os.path.join` appends to the path rather than letting it replace the path. */
  predicate Relative(x: string) {
    x == "" || x[0] != '/'
  }

  /** The finder names only relative modules for the module at `p`. */
  predicate RelativeFinds(cfg: Config, p: Path) {
    forall x :: x in Found(cfg, p).0 + Found(cfg, p).1 ==> Relative(x)
  }

  /** The finder names only relative modules, for every module path. */
  ghost predicate RelativeFinder(cfg: Config) {
    forall p :: RelativeFinds(cfg, p)
  }

  lemma FinderAt(cfg: Config, p: Path)
    requires RelativeFinder(cfg)
    ensures RelativeFinds(cfg, p)
  {
  }

  /** A task's path is its plain root, canonical, followed by nothing or by `/` and more: the
      shape `GuardRefusesAncestors` is about. */
  predicate RootShaped(t: Task) {
    PlainRoot(t.root) && Under(t.path, Canon(t.root))
  }

  predicate AllShaped(w: World) {
    forall j :: 0 <= j < |w.todo| ==> RootShaped(w.todo[j])
  }

  /** A plain root's canonical form is non-empty and ends in its name. */
  lemma PlainRootCanon(overall: Path)
    requires PlainRoot(overall)
    ensures Canon(overall) != "" && !EndsWithSlash(Canon(overall)) && Under(overall, Canon(overall))
  {
    var rs := Canon(overall);
    var b := Basename(rs);
    assert b != "";
    EndsInName(rs, b);
    if EndsWithSlash(overall) {
      assert overall[..|rs|] == rs;
    }
  }

  /** A path ending in a non-empty basename does not end in a separator. */
  lemma EndsInName(rs: Path, b: string)
    requires b == Basename(rs) && b != ""
    ensures rs != "" && !EndsWithSlash(rs)
  {
    match LastSlash(rs)
    case None =>
      assert rs[|rs| - 1] in rs;
    case Some(i) =>
      assert rs[|rs| - 1] == b[|b| - 1];
      assert b[|b| - 1] in b;
  }

  /** Joining a relative name below a folder keeps the path below that folder. */
  lemma JoinUnder(p: Path, c: Path, x: string)
    requires Under(p, c) && c != "" && !EndsWithSlash(c) && Relative(x)
    ensures Under(Join(p, x), c)
  {
    var j := Join(p, x);
    if p == c {
      assert j == c + "/" + x;
      assert j[..|c|] == c;
    } else {
      assert p != "";
      assert j[..|p|] == p;
      assert j[..|c|] == p[..|c|];
    }
  }

  /** Every module a visit of a shaped task pushes is shaped, when the folder names and the
      finder's names are relative. */
  lemma ChildShaped(u: Task, t: Task, acc: map<Path, set<Name>>, cfg: Config)
    requires RootShaped(t) && ChildTask(u, t, acc, cfg)
    requires Relative(cfg.id1) && Relative(cfg.id2) && RelativeFinds(cfg, t.path)
    ensures RootShaped(u)
  {
    var c := Canon(t.root);
    PlainRootCanon(t.root);
    var found := Found(cfg, t.path);
    var x :| Searchable(cfg.search, x) && (FirstChild(u, t, found.0, x, cfg) || SecondChild(u, t, found.1, AccOf(acc, t.root), x, cfg));
    assert x in found.0 + found.1;
    if FirstChild(u, t, found.0, x, cfg) {
      JoinUnder(t.path, c, cfg.id1);
      JoinUnder(Join(t.path, cfg.id1), c, x);
    } else {
      JoinUnder(t.root, c, cfg.id2);
      JoinUnder(Join(t.root, cfg.id2), c, x);
    }
  }

  /** The adding loops of a visit keep every task shaped. */
  lemma AddPhaseKeepsShape(n: Nodes, w: World, cfg: Config)
    requires AllShaped(w) && w.todo != []
    requires Relative(cfg.id1) && Relative(cfg.id2) && RelativeFinds(cfg, w.todo[0].path)
    ensures AllShaped(AddPhase(n, w.acc, w.todo[1..], w.todo[0], cfg))
  {
    AddPhasePushesFront(n, w.acc, w.todo[1..], w.todo[0], cfg);
    FrontKeepsShape(AddPhase(n, w.acc, w.todo[1..], w.todo[0], cfg), w, cfg);
  }

  /** A worklist made of children of the first task in front of the rest keeps every task shaped. */
  lemma FrontKeepsShape(w': World, w: World, cfg: Config)
    requires AllShaped(w) && w.todo != []
    requires Relative(cfg.id1) && Relative(cfg.id2) && RelativeFinds(cfg, w.todo[0].path)
    requires |w'.todo| >= |w.todo| - 1 && w'.todo[|w'.todo| - (|w.todo| - 1)..] == w.todo[1..]
    requires forall j :: 0 <= j < |w'.todo| - (|w.todo| - 1) ==> ChildTask(w'.todo[j], w.todo[0], w.acc, cfg)
    ensures AllShaped(w')
  {
    var rest := w.todo[1..];
    forall j | 0 <= j < |w'.todo| ensures RootShaped(w'.todo[j]) {
      if j < |w'.todo| - |rest| {
        ChildShaped(w'.todo[j], w.todo[0], w.acc, cfg);
      } else {
        assert w'.todo[j] == rest[j - (|w'.todo| - |rest|)];
      }
    }
  }

  /** So does a visit. */
  lemma VisitKeepsShape(w: World, cfg: Config)
    requires AllShaped(w) && w.todo != []
    requires Relative(cfg.id1) && Relative(cfg.id2) && RelativeFinder(cfg)
    ensures var v := VisitTask(w.nodes, w.acc, w.todo[1..], w.todo[0], cfg);
      v.Visited? ==> AllShaped(v.w)
  {
    FinderAt(cfg, w.todo[0].path);
    var v := VisitTask(w.nodes, w.acc, w.todo[1..], w.todo[0], cfg);
    if v.Visited? {
      VisitedIsAddPhase(w.nodes, w.acc, w.todo[1..], w.todo[0], cfg);
      var m :| v.w == AddPhase(m, w.acc, w.todo[1..], w.todo[0], cfg);
      AddPhaseKeepsShape(m, w, cfg);
    }
  }

  /** Starting from shaped tasks, with relative folder names and a finder that names only
      relative modules, every task the loop ever holds is shaped. */
  lemma {:induction false} TurnsKeepShape(w0: World, cfg: Config, k: nat)
    requires AllShaped(w0) && Relative(cfg.id1) && Relative(cfg.id2) && RelativeFinder(cfg)
    ensures AllShaped(Turns(w0, cfg, k).w)
    decreases k
  {
    if k > 0 {
      TurnsKeepShape(w0, cfg, k - 1);
      var s := Turns(w0, cfg, k - 1);
      if s.Running? {
        TurnTaken(w0, cfg, k - 1, s.w);
        if s.w.todo != [] {
          VisitKeepsShape(s.w, cfg);
        }
      } else {
        HaltedStays(w0, cfg, k - 1, k);
      }
    }
  }

  /** The initial worklist of plain roots is shaped. */
  lemma InitialShaped(n: Nodes, roots: seq<Path>)
    requires forall r :: r in roots ==> PlainRoot(r)
    ensures AllShaped(Initial(n, roots))
  {
    var w := Initial(n, roots);
    forall j | 0 <= j < |w.todo| ensures RootShaped(w.todo[j]) {
      PlainRootCanon(roots[j]);
    }
  }

  /** So for plain roots, relative folder names and a finder that names only relative
      modules, the guard refuses, at every task the loop reaches, the root's name and every
      folder between the root and the module. */
  lemma GuardAtEveryTask(n: Nodes, roots: seq<Path>, cfg: Config, k: nat, first: seq<Name>)
    requires forall r :: r in roots ==> PlainRoot(r)
    requires Relative(cfg.id1) && Relative(cfg.id2) && RelativeFinder(cfg)
    ensures var todo := Turns(Initial(n, roots), cfg, k).w.todo;
      forall j :: 0 <= j < |todo| ==>
        var t := todo[j];
        var allowed := Unguarded(first, Components(t.path, t.root));
        && RootShaped(t) && |Canon(t.root)| <= |t.path|
        && Basename(Canon(t.root)) !in allowed
        && forall x :: x in PiecesBelow(t.path[|Canon(t.root)|..]) ==> x !in allowed
  {
    InitialShaped(n, roots);
    TurnsKeepShape(Initial(n, roots), cfg, k);
    var todo := Turns(Initial(n, roots), cfg, k).w.todo;
    forall j | 0 <= j < |todo|
      ensures var t := todo[j];
        var allowed := Unguarded(first, Components(t.path, t.root));
        && RootShaped(t) && |Canon(t.root)| <= |t.path|
        && Basename(Canon(t.root)) !in allowed
        && forall x :: x in PiecesBelow(t.path[|Canon(t.root)|..]) ==> x !in allowed
    {
      var t := todo[j];
      var c := Canon(t.root);
      assert RootShaped(t);
      var tail := t.path[|c|..];
      assert t.path == c + tail;
      GuardRefusesAncestors(first, t.root, tail);
    }
  }

  /** The first root that is not a directory, if any (:348-350). */
  function FirstMissing(n: Nodes, roots: seq<Path>): (r: Option<Path>)
    ensures r.None? <==> forall j :: 0 <= j < |roots| ==> DirIn(n, roots[j])
    ensures r.Some? ==> exists j :: 0 <= j < |roots| && roots[j] == r.value && !DirIn(n, r.value)
                                    && forall i :: 0 <= i < j ==> DirIn(n, roots[i])
    decreases |roots|
  {
    if roots == [] then None
    else if !DirIn(n, roots[0]) then Some(roots[0])
    else
      var r := FirstMissing(n, roots[1..]);
      assert forall j :: 1 <= j < |roots| ==> roots[j] == roots[1..][j - 1];
      r
  }

  /** The preflight check. */
  method CheckRoots(fs: FileSystem, roots: seq<Path>) returns (missing: Option<Path>)
    ensures missing == FirstMissing(fs.nodes, roots)
  {
    for i := 0 to |roots|
      invariant FirstMissing(fs.nodes, roots) == FirstMissing(fs.nodes, roots[i..])
    {
      assert roots[i..][1..] == roots[i + 1..];
      if !fs.IsDir(roots[i]) {
        return Some(roots[i]);
      }
    }
    return None;
  }

  /** The worklist and the collected names before the first visit (:355-361). */
  function Initial(n: Nodes, roots: seq<Path>): (w: World)
    ensures w.todo == seq(|roots|, j requires 0 <= j < |roots| => Task(roots[j], roots[j]))
    ensures w.acc.Keys == Elements(roots) && forall r :: r in w.acc ==> w.acc[r] == {}
  {
    World(n, seq(|roots|, j requires 0 <= j < |roots| => Task(roots[j], roots[j])), map r | r in Elements(roots) :: {})
  }

  /** Pruning one root's `submodules2` folder to its collected names (:476-487): with none
      the folder is deleted if present; otherwise listing it raises unless it is a
      directory, and every child not collected is deleted. */
  ghost function PruneOne(n: Nodes, r: Path, names: set<Name>, id2: Name): Step {
    var k := Join(r, id2);
    if names == {} then Step(if Present(n, k) then Removed(n, Canon(k)) else n, true)
    else if DirIn(n, k) then Step(Pruned(n, Canon(k), names), true)
    else Step(n, false)
  }

  /** After the prune a root without collected names has no `submodules2` folder, and one
      with collected names has a directory holding only those; only a missing directory
      raises. Nothing outside the folder changes. */
  lemma PruneOneOutcome(n: Nodes, r: Path, names: set<Name>, id2: Name)
    ensures var s, k := PruneOne(n, r, names, id2), Join(r, id2);
      && (names == {} ==> s.ok && (!RootPath(k) ==> !Present(s.nodes, k)))
      && (s.ok <==> names == {} || DirIn(n, k))
      && (s.ok && names != {} ==> DirIn(s.nodes, k) && Children(s.nodes, Canon(k)) == Children(n, Canon(k)) * names)
      && (!s.ok ==> s.nodes == n)
      && (forall p :: p in n && !Under(p, Canon(k)) ==> p in s.nodes && s.nodes[p] == n[p])
  {
    var k := Join(r, id2);
    RemovedSubtree(n, Canon(k));
    PrunedChildren(n, Canon(k), names);
  }

  /** The final prune over the roots in the order the dictionary holds them, stopping at the
      first that raises. */
  ghost function PruneAll(n: Nodes, rs: seq<Path>, acc: map<Path, set<Name>>, id2: Name): (Nodes, Option<Path>)
    decreases |rs|
  {
    if rs == [] then (n, None)
    else
      var s := PruneOne(n, rs[0], AccOf(acc, rs[0]), id2);
      if !s.ok then (s.nodes, Some(Join(rs[0], id2)))
      else PruneAll(s.nodes, rs[1..], acc, id2)
  }

  /** The final prune raises only at a root's `submodules2` folder, and changes nothing outside
      the roots' `submodules2` folders. */
  lemma {:induction false} PruneAllOutcome(n: Nodes, rs: seq<Path>, acc: map<Path, set<Name>>, id2: Name)
    ensures var p := PruneAll(n, rs, acc, id2);
      && (p.1.Some? ==> exists i :: 0 <= i < |rs| && p.1.value == Join(rs[i], id2))
      && (forall q :: q in n && (forall i :: 0 <= i < |rs| ==> !Under(q, Canon(Join(rs[i], id2)))) ==>
            q in p.0 && p.0[q] == n[q])
    decreases |rs|
  {
    if rs != [] {
      var s := PruneOne(n, rs[0], AccOf(acc, rs[0]), id2);
      PruneOneOutcome(n, rs[0], AccOf(acc, rs[0]), id2);
      if s.ok {
        PruneAllOutcome(s.nodes, rs[1..], acc, id2);
        var p := PruneAll(s.nodes, rs[1..], acc, id2);
        if p.1.Some? {
          var i :| 0 <= i < |rs[1..]| && p.1.value == Join(rs[1..][i], id2);
          assert p.1.value == Join(rs[i + 1], id2);
        }
        forall q | q in n && (forall i :: 0 <= i < |rs| ==> !Under(q, Canon(Join(rs[i], id2))))
          ensures q in p.0 && p.0[q] == n[q]
        {
          assert !Under(q, Canon(Join(rs[0], id2)));
          forall i | 0 <= i < |rs[1..]| ensures !Under(q, Canon(Join(rs[1..][i], id2))) {
            assert rs[1..][i] == rs[i + 1];
          }
        }
      }
    }
  }

  /** After a final prune that raises nowhere, a root with no collected names has no
      `submodules2` folder, and every child left in the folder of a root with collected names
      is one of them; the prune only removed paths. */
  lemma {:induction false} PruneAllShape(n: Nodes, rs: seq<Path>, acc: map<Path, set<Name>>, id2: Name)
    ensures var p := PruneAll(n, rs, acc, id2);
      p.1.None? ==>
        && SubTree(p.0, n)
        && forall i :: 0 <= i < |rs| ==>
             && (AccOf(acc, rs[i]) == {} && !RootPath(Join(rs[i], id2)) ==> !Present(p.0, Join(rs[i], id2)))
             && (AccOf(acc, rs[i]) != {} ==> Children(p.0, Canon(Join(rs[i], id2))) <= AccOf(acc, rs[i]))
    decreases |rs|
  {
    if rs != [] {
      var names, k0 := AccOf(acc, rs[0]), Join(rs[0], id2);
      var s := PruneOne(n, rs[0], names, id2);
      PruneOneOutcome(n, rs[0], names, id2);
      if s.ok {
        assert SubTree(s.nodes, n);
        PruneAllShape(s.nodes, rs[1..], acc, id2);
        var p := PruneAll(s.nodes, rs[1..], acc, id2);
        if p.1.None? {
          SubTreeListing(p.0, s.nodes, k0);
          forall i | 0 <= i < |rs|
            ensures && (AccOf(acc, rs[i]) == {} && !RootPath(Join(rs[i], id2)) ==> !Present(p.0, Join(rs[i], id2)))
                    && (AccOf(acc, rs[i]) != {} ==> Children(p.0, Canon(Join(rs[i], id2))) <= AccOf(acc, rs[i]))
          {
            if i > 0 {
              assert rs[1..][i - 1] == rs[i];
            }
          }
        }
      }
    }
  }

  method PruneRoot(fs: FileSystem, r: Path, names: set<Name>, id2: Name) returns (ok: bool)
    modifies fs
    ensures Step(fs.nodes, ok) == PruneOne(old(fs.nodes), r, names, id2)
  {
    var k := Join(r, id2);
    if |names| == 0 {
      if fs.Exists(k) {
        fs.RmRecursive(k);
      }
      return true;
    }
    if !fs.IsDir(k) {
      return false;
    }
    fs.PruneChildren(k, names);
    ok := true;
  }

  method FinalPrune(fs: FileSystem, rs: seq<Path>, acc: map<Path, set<Name>>, id2: Name) returns (raisedAt: Option<Path>)
    modifies fs
    ensures (fs.nodes, raisedAt) == PruneAll(old(fs.nodes), rs, acc, id2)
  {
    ghost var n0 := fs.nodes;
    for i := 0 to |rs|
      invariant PruneAll(fs.nodes, rs[i..], acc, id2) == PruneAll(n0, rs, acc, id2)
    {
      assert rs[i..][1..] == rs[i + 1..];
      var ok := PruneRoot(fs, rs[i], AccOf(acc, rs[i]), id2);
      if !ok {
        return Some(Join(rs[i], id2));
      }
    }
    return None;
  }

  /** The whole of `dosubmodules`: the preflight check, the main loop, and the final prune
      over the roots, each once, in the order they first occur. */
  ghost function Run(n: Nodes, roots: seq<Path>, cfg: Config, fuel: nat): (Nodes, Outcome) {
    match FirstMissing(n, roots)
    case Some(r) => (n, RootMissing(r))
    case None =>
      var l := Loop(Initial(n, roots), cfg, fuel);
      if l.1 != Done then (l.0.nodes, l.1)
      else
        var p := PruneAll(l.0.nodes, NewNames({}, roots), l.0.acc, cfg.id2);
        (p.0, if p.1.Some? then Raised(p.1.value) else Done)
  }

  /** A run that completes leaves each root's `submodules2` folder shaped by the names the
      main loop collected for that root: absent when there are none, and holding none but
      those otherwise; the final prune only removed paths. */
  lemma RunPrunes(n: Nodes, roots: seq<Path>, cfg: Config, fuel: nat)
    ensures var run, l := Run(n, roots, cfg, fuel), Loop(Initial(n, roots), cfg, fuel);
      run.1 == Done ==>
        && FirstMissing(n, roots).None? && l.1 == Done && SubTree(run.0, l.0.nodes)
        && forall r :: r in roots ==>
             && (AccOf(l.0.acc, r) == {} && !RootPath(Join(r, cfg.id2)) ==> !Present(run.0, Join(r, cfg.id2)))
             && (AccOf(l.0.acc, r) != {} ==> Children(run.0, Canon(Join(r, cfg.id2))) <= AccOf(l.0.acc, r))
  {
    var l := Loop(Initial(n, roots), cfg, fuel);
    var rs := NewNames({}, roots);
    NewNamesSpec({}, roots);
    PruneAllShape(l.0.nodes, rs, l.0.acc, cfg.id2);
    forall r | r in roots ensures exists i :: 0 <= i < |rs| && rs[i] == r {
      assert r in Elements(roots);
      assert r in Elements(rs);
    }
  }

  /** A finder that raises on the first root stops the run there, before any folder is
      touched. `dosubmodules_local` with its default `filestoparsedict = None` is such a
      run: its finder reads an unbound variable on every module
      (`Local.AsWrittenFilesForUnbound`). */
  lemma RaisingFinderStops(n: Nodes, roots: seq<Path>, cfg: Config, fuel: nat)
    requires roots != [] && fuel > 0 && FirstMissing(n, roots).None? && cfg.find(roots[0]).None?
    ensures Run(n, roots, cfg, fuel) == (n, Raised(roots[0]))
  {
    var w0 := Initial(n, roots);
    assert w0.todo[0] == Task(roots[0], roots[0]);
    TurnTaken(w0, cfg, 0, w0);
    LoopHalted(w0, cfg, 1, fuel);
  }

  /** The filesystem root passes the preflight check whatever is stored. */
  lemma RootPassesCheck(n: Nodes)
    ensures DirIn(n, "/") && FirstMissing(n, ["/"]).None?
  {
  }

  /** One visit on the filesystem. */
  method VisitOne(fs: FileSystem, acc: map<Path, set<Name>>, rest: seq<Task>, t: Task, cfg: Config)
    returns (todo: seq<Task>, acc': map<Path, set<Name>>, raisedAt: Option<Path>)
    modifies fs
    ensures match VisitTask(old(fs.nodes), acc, rest, t, cfg)
      case Visited(w) => raisedAt.None? && w == World(fs.nodes, todo, acc')
      case VisitRaised(m, at) => raisedAt == Some(at) && m == fs.nodes
  {
    var answer := cfg.find(t.path);
    if answer.None? {
      return [], acc, Some(t.path);
    }
    var first := answer.value.0;
    var second := answer.value.1;
    var donow, collected := NewSecondNames(AccOf(acc, t.root), second);
    acc' := acc[t.root := collected];
    var k1 := Join(t.path, cfg.id1);
    var ok := ReconcileFolder(fs, k1, first);
    if !ok {
      return [], acc', Some(k1);
    }
    var k2 := Join(t.root, cfg.id2);
    ok := EnsureSecondFolder(fs, k2, donow);
    if !ok {
      return [], acc', Some(k2);
    }
    var front1, front2;
    ghost var tries;
    front1, tries := AddNames(fs, t.path, cfg.id1, Unguarded(first, Components(t.path, t.root)), t.root, cfg);
    front2, tries := AddNames(fs, t.root, cfg.id2, donow, t.root, cfg);
    todo := front2 + front1 + rest;
    raisedAt := None;
  }

  /** A loop that stopped within its fuel ends where it stopped. */
  lemma LoopHalted(w0: World, cfg: Config, k: nat, fuel: nat)
    requires k <= fuel && Turns(w0, cfg, k).Halted?
    ensures Loop(w0, cfg, fuel) == (Turns(w0, cfg, k).w, Turns(w0, cfg, k).out)
  {
    HaltedStays(w0, cfg, k, fuel);
  }

  /** A loop whose worklist is empty within its fuel ends normally there. */
  lemma LoopDrained(w0: World, cfg: Config, k: nat, fuel: nat, w: World)
    requires k <= fuel && Turns(w0, cfg, k) == Running(w) && w.todo == []
    ensures Loop(w0, cfg, fuel) == (w, Done)
  {
    if k < fuel {
      TurnTaken(w0, cfg, k, w);
      HaltedStays(w0, cfg, k + 1, fuel);
    }
  }

  /** Turn `k + 1` of the loop on the filesystem: one visit of the task at the front. */
  method TakeTurn(fs: FileSystem, ghost w0: World, ghost k: nat, todo: seq<Task>, acc: map<Path, set<Name>>, cfg: Config)
    returns (todo': seq<Task>, acc': map<Path, set<Name>>, raisedAt: Option<Path>)
    requires Turns(w0, cfg, k) == Running(World(fs.nodes, todo, acc)) && todo != []
    modifies fs
    ensures raisedAt.None? ==> Turns(w0, cfg, k + 1) == Running(World(fs.nodes, todo', acc'))
    ensures raisedAt.Some? ==> Turns(w0, cfg, k + 1) == Halted(World(fs.nodes, todo, acc), Raised(raisedAt.value))
  {
    TurnTaken(w0, cfg, k, World(fs.nodes, todo, acc));
    todo', acc', raisedAt := VisitOne(fs, acc, todo[1..], todo[0], cfg);
  }

  /** The main loop on the filesystem, from the world `w0`. */
  method MainLoop(fs: FileSystem, w0: World, cfg: Config, fuel: nat) returns (acc: map<Path, set<Name>>, out: Outcome)
    requires w0.nodes == fs.nodes
    modifies fs
    ensures Loop(w0, cfg, fuel).0.nodes == fs.nodes && Loop(w0, cfg, fuel).0.acc == acc
    ensures Loop(w0, cfg, fuel).1 == out
  {
    var todo := w0.todo;
    acc := w0.acc;
    var left: nat := fuel;
    ghost var k: nat := 0;
    while todo != [] && left > 0
      invariant k + left == fuel
      invariant Turns(w0, cfg, k) == Running(World(fs.nodes, todo, acc))
      decreases left
    {
      var raisedAt;
      var accBefore := acc;
      todo, acc, raisedAt := TakeTurn(fs, w0, k, todo, acc, cfg);
      k, left := k + 1, left - 1;
      if raisedAt.Some? {
        LoopHalted(w0, cfg, k, fuel);
        return accBefore, Raised(raisedAt.value);
      }
    }
    if todo != [] {
      return acc, OutOfFuel;
    }
    LoopDrained(w0, cfg, k, fuel, World(fs.nodes, todo, acc));
    out := Done;
  }

  /** `dosubmodules(roots, find, add, id1, id2, search)`. */
  method DoSubmodules(fs: FileSystem, roots: seq<Path>, cfg: Config, fuel: nat) returns (out: Outcome)
    modifies fs
    ensures (fs.nodes, out) == Run(old(fs.nodes), roots, cfg, fuel)
    ensures var acc := Loop(Initial(old(fs.nodes), roots), cfg, fuel).0.acc;
      out == Done ==> forall r :: r in roots ==>
        && (AccOf(acc, r) == {} && !RootPath(Join(r, cfg.id2)) ==> !Present(fs.nodes, Join(r, cfg.id2)))
        && (AccOf(acc, r) != {} ==> Children(fs.nodes, Canon(Join(r, cfg.id2))) <= AccOf(acc, r))
  {
    RunPrunes(fs.nodes, roots, cfg, fuel);
    var missing := CheckRoots(fs, roots);
    if missing.Some? {
      return RootMissing(missing.value);
    }
    var acc;
    acc, out := MainLoop(fs, Initial(fs.nodes, roots), cfg, fuel);
    if out != Done {
      return out;
    }
    var rs, _ := NewSecondNames({}, roots);
    var raisedAt := FinalPrune(fs, rs, acc, cfg.id2);
    out := if raisedAt.Some? then Raised(raisedAt.value) else Done;
  }
}
