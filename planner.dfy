/** Path planner, `getsubmodulepathdicts` (mysubmodules_func.py:204-246): a FIFO worklist of
    `[modulepath, submodules2root]` pairs that builds, in insertion order, a dictionary from
    each folder that must hold submodules to the names it must hold. */
module Planner {
  import opened Names
  import opened Paths
  import opened Resolver

  /** One element of `toparselist`: a module's location and the `submodules2/` folder of the
      root it belongs to. */
  datatype Item = Item(path: Path, root2: Path)

  /** `submodulepathsubmodulesdict`: the keys in insertion order and the names for each key. */
  datatype Plan = Plan(order: seq<Path>, folders: map<Path, set<Name>>)

  /** The insertion order lists each key exactly once. */
  predicate Ordered(p: Plan) {
    && (forall i, j :: 0 <= i < j < |p.order| ==> p.order[i] != p.order[j])
    && p.folders.Keys == set k | k in p.order
  }

  /** `d[k] = v` on a Python dictionary: a new key goes to the end, an old key keeps its place. */
  function Put(p: Plan, k: Path, v: set<Name>): (r: Plan)
    ensures Ordered(p) ==> Ordered(r)
    ensures r.folders == p.folders[k := v]
    ensures k in p.folders ==> r.order == p.order
  {
    Plan(if k in p.folders then p.order else p.order + [k], p.folders[k := v])
  }

  /** `os.path.join(root, submodulename2) + '/'` (:214). */
  function SecondRoot(r: Path, id2: Name): Path {
    Join(r, id2) + "/"
  }

  /** `os.path.join(modulepath, submodulename1) + '/'` (:233). */
  function FirstFolder(mp: Path, id1: Name): Path {
    Join(mp, id1) + "/"
  }

  /** The cycle test at :230: `submodulename1 + '/' + x + '/' in modulepath`. */
  predicate Circular(id1: Name, x: Name, mp: Path) {
    Substring(id1 + "/" + x + "/", mp)
  }

  /** Removing the circular names, as the comment at :228 intends. */
  function DropCircular(names: seq<Name>, id1: Name, mp: Path): (r: seq<Name>)
    ensures forall x :: x in r <==> x in names && !Circular(id1, x, mp)
    ensures |r| <= |names|
    decreases |names|
  {
    if names == [] then []
    else
      var rest := DropCircular(names[1..], id1, mp);
      assert forall x :: x in names <==> x == names[0] || x in names[1..];
      (if Circular(id1, names[0], mp) then [] else [names[0]]) + rest
  }

  /** Python's `list.remove(x)`: drops the first element equal to `x`. */
  function RemoveFirst(l: seq<Name>, x: Name): (r: seq<Name>)
    ensures |r| <= |l|
    ensures forall y :: y in r ==> y in l
    ensures forall y :: y in l && y != x ==> y in r
    decreases |l|
  {
    if l == [] then []
    else if l[0] == x then l[1..]
    else [l[0]] + RemoveFirst(l[1..], x)
  }

  /** The loop at :229-232 as written: iterating by position over a list that `remove`
      shortens, so the name after each removed one is never tested. */
  function DropCircularAsWritten(l: seq<Name>, id1: Name, mp: Path, i: nat): seq<Name>
    decreases |l| - i
  {
    if i >= |l| then l
    else if Circular(id1, l[i], mp) then DropCircularAsWritten(RemoveFirst(l, l[i]), id1, mp, i + 1)
    else DropCircularAsWritten(l, id1, mp, i + 1)
  }

  /** The loop as written removes only names of the list, and never a name that is not
      circular: it is never stricter than the intended filter. */
  lemma {:induction false} AsWrittenBetween(l: seq<Name>, id1: Name, mp: Path, i: nat)
    ensures forall y :: y in DropCircularAsWritten(l, id1, mp, i) ==> y in l
    ensures forall y :: y in DropCircular(l, id1, mp) ==> y in DropCircularAsWritten(l, id1, mp, i)
    decreases |l| - i
  {
    if i < |l| {
      if Circular(id1, l[i], mp) {
        var l' := RemoveFirst(l, l[i]);
        AsWrittenBetween(l', id1, mp, i + 1);
        RemoveKeepsFiltered(l, l[i], id1, mp);
      } else {
        AsWrittenBetween(l, id1, mp, i + 1);
      }
    }
  }

  /** Removing a circular name loses nothing that the intended filter keeps. */
  lemma RemoveKeepsFiltered(l: seq<Name>, x: Name, id1: Name, mp: Path)
    requires Circular(id1, x, mp)
    ensures forall y :: y in DropCircular(l, id1, mp) ==> y in DropCircular(RemoveFirst(l, x), id1, mp)
  {
    forall y | y in DropCircular(l, id1, mp) ensures y in DropCircular(RemoveFirst(l, x), id1, mp) {
      assert y in l && y != x;
    }
  }

  /** A module at `a/submodules/x/submodules/y/` whose own list is `["x", "y"]`: the loop as
      written removes `x`, skips `y`, and leaves the circular `y` in place; the intended
      filter leaves nothing. */
  lemma AsWrittenSkipsName()
    ensures var mp := "a/submodules/x/submodules/y/";
      && Circular("submodules", "y", mp)
      && DropCircularAsWritten(["x", "y"], "submodules", mp, 0) == ["y"]
      && DropCircular(["x", "y"], "submodules", mp) == []
  {
    var mp := "a/submodules/x/submodules/y/";
    var sx, sy := "submodules/x/", "submodules/y/";
    assert mp == "a/" + sx + sy;
    assert "submodules" + "/" + "x" + "/" == sx && "submodules" + "/" + "y" + "/" == sy;
    assert OccursAt(sx, mp, 2) by { assert ("a/" + sx + sy)[2..15] == sx; }
    assert OccursAt(sy, mp, 15) by { assert ("a/" + sx + sy)[15..28] == sy; }
    assert RemoveFirst(["x", "y"], "x") == ["y"];
  }

  /** The planner's fixed inputs: the roots, the two scan dictionaries of the resolver, the two
      folder names and the search list. */
  datatype Env = Env(roots: seq<Path>, first: map<Name, seq<Name>>, second: map<Name, seq<Name>>,
                     id1: Name, id2: Name, search: Option<seq<Name>>)

  /** The initial `toparselist` (:218). */
  function RootItems(roots: seq<Path>, id2: Name): (r: seq<Item>)
    ensures |r| == |roots| && forall i :: 0 <= i < |roots| ==> r[i] == Item(roots[i], SecondRoot(roots[i], id2))
  {
    seq(|roots|, i requires 0 <= i < |roots| => Item(roots[i], SecondRoot(roots[i], id2)))
  }

  function SecondRoots(env: Env): set<Path> {
    set i | 0 <= i < |env.roots| :: SecondRoot(env.roots[i], env.id2)
  }

  function ItemSet(s: seq<Item>): set<Item> {
    set x | x in s
  }

  /** The item's module name reads from its path and both dictionaries know it. */
  predicate Valid(env: Env, it: Item) {
    ModuleAt(it.path).Some? && ModuleAt(it.path).value in env.first && ModuleAt(it.path).value in env.second
  }

  /** The loop at :239-241: an item for each searchable name kept in the first-class list. */
  function FirstKids(mp: Path, root2: Path, names: seq<Name>, id1: Name, search: Option<seq<Name>>): (r: seq<Item>)
    ensures forall k :: 0 <= k < |r| ==> r[k].root2 == root2
    ensures forall x :: x in names && InSearch(search, x) ==> Item(Join(Join(mp, id1), x) + "/", root2) in r
    decreases |names|
  {
    if names == [] then []
    else
      var last := names[|names| - 1];
      var init := names[..|names| - 1];
      assert forall x :: x in names ==> x == last || x in init;
      FirstKids(mp, root2, init, id1, search) + (if InSearch(search, last) then [Item(Join(Join(mp, id1), last) + "/", root2)] else [])
  }

  /** The loop at :242-244: an item for each searchable second-class name. */
  function SecondKids(root2: Path, names: seq<Name>, search: Option<seq<Name>>): (r: seq<Item>)
    ensures forall k :: 0 <= k < |r| ==> r[k].root2 == root2
    ensures forall x :: x in names && InSearch(search, x) ==> Item(Join(root2, x) + "/", root2) in r
    decreases |names|
  {
    if names == [] then []
    else
      var last := names[|names| - 1];
      var init := names[..|names| - 1];
      assert forall x :: x in names ==> x == last || x in init;
      SecondKids(root2, init, search) + (if InSearch(search, last) then [Item(Join(root2, last) + "/", root2)] else [])
  }

  function Kept(env: Env, it: Item): seq<Name>
    requires Valid(env, it)
  {
    DropCircular(env.first[ModuleAt(it.path).value], env.id1, it.path)
  }

  /** Everything one visit appends to `toparselist`. */
  function Kids(env: Env, it: Item): seq<Item>
    requires Valid(env, it)
  {
    FirstKids(it.path, it.root2, Kept(env, it), env.id1, env.search)
      + SecondKids(it.root2, env.second[ModuleAt(it.path).value], env.search)
  }

  /** A set of items that holds what each of its valid members appends. */
  ghost predicate ClosedItems(env: Env, t: set<Item>) {
    forall it, k :: it in t && Valid(env, it) && k in Kids(env, it) ==> k in t
  }

  /** The names the visits so far add to the shared entry `s` (:236, as intended). */
  function SharedNames(env: Env, visited: seq<Item>, s: Path): set<Name>
    decreases |visited|
  {
    if visited == [] then {}
    else
      var last := visited[|visited| - 1];
      SharedNames(env, visited[..|visited| - 1], s)
        + (if last.root2 == s && Valid(env, last) then Elements(env.second[ModuleAt(last.path).value]) else {})
  }

  /** The first-class keys the visits write. */
  function FirstFolders(env: Env, visited: seq<Item>): (r: set<Path>)
    decreases |visited|
  {
    if visited == [] then {}
    else FirstFolders(env, visited[..|visited| - 1]) + {FirstFolder(visited[|visited| - 1].path, env.id1)}
  }

  function VisitedPaths(visited: seq<Item>): (r: set<Path>)
    ensures forall i :: 0 <= i < |visited| ==> visited[i].path in r
    decreases |visited|
  {
    if visited == [] then {}
    else VisitedPaths(visited[..|visited| - 1]) + {visited[|visited| - 1].path}
  }

  /** `r[s] = r[s] | names` on the shared `submodules2/` entry, as the comment at :235 intends. */
  function Share(p: Plan, s: Path, names: seq<Name>): (r: Plan)
    requires s in p.folders
    ensures r.order == p.order && r.folders.Keys == p.folders.Keys
    ensures r.folders[s] == p.folders[s] + Elements(names)
    ensures forall k :: k in p.folders && k != s ==> r.folders[k] == p.folders[k]
  {
    Plan(p.order, p.folders[s := p.folders[s] + Elements(names)])
  }

  /** Line :236 as written: `set.union` returns a new set and the statement throws it away. */
  function ShareAsWritten(p: Plan, s: Path, names: seq<Name>): Plan
    requires s in p.folders
  {
    var _ := p.folders[s] + Elements(names);
    p
  }

  /** With the union thrown away a root's `submodules2/` entry stays empty however many
      second-class names its modules use, so the folder is deleted instead of filled. */
  lemma ShareAsWrittenLoses()
    ensures var p := Plan(["R/submodules2/"], map["R/submodules2/" := {}]);
      && ShareAsWritten(p, "R/submodules2/", ["b"]).folders["R/submodules2/"] == {}
      && Share(p, "R/submodules2/", ["b"]).folders["R/submodules2/"] == {"b"}
  {
    assert Elements(["b"]) == {"b"};
  }

  /** The worklist state: the dictionary, `toparselist`, and two ghost logs: the items visited
      in order and, for each first-class key, the module path that last wrote it. */
  datatype Planning = Planning(plan: Plan, todo: seq<Item>, visited: seq<Item>, origin: map<Path, Path>)

  ghost predicate Keyed(env: Env, st: Planning) {
    KeyedBy(env, st.plan, st.visited, st.origin)
  }

  ghost predicate KeyedBy(env: Env, plan: Plan, visited: seq<Item>, origin: map<Path, Path>) {
    && Ordered(plan)
    && plan.folders.Keys == SecondRoots(env) + origin.Keys
    && origin.Keys == FirstFolders(env, visited)
  }

  /** Every item belongs to a root's shared folder, and every visited item was valid. */
  ghost predicate Rooted(env: Env, st: Planning) {
    && (forall i :: 0 <= i < |st.todo| ==> st.todo[i].root2 in SecondRoots(env))
    && (forall i :: 0 <= i < |st.visited| ==> st.visited[i].root2 in SecondRoots(env) && Valid(env, st.visited[i]))
  }

  /** Each first-class key holds the kept list of the module that last wrote it. */
  ghost predicate Written(env: Env, st: Planning) {
    WrittenBy(env, st.plan, st.visited, st.origin)
  }

  ghost predicate WrittenBy(env: Env, plan: Plan, visited: seq<Item>, origin: map<Path, Path>) {
    forall k :: k in origin ==>
      && k in plan.folders
      && k == FirstFolder(origin[k], env.id1)
      && origin[k] in VisitedPaths(visited)
      && ModuleAt(origin[k]).Some?
      && ModuleAt(origin[k]).value in env.first
      && (k !in SecondRoots(env) ==>
            plan.folders[k] == Elements(DropCircular(env.first[ModuleAt(origin[k]).value], env.id1, origin[k])))
  }

  /** Each shared entry that no first-class write hit holds the union of the visits' second-class names. */
  ghost predicate Shared(env: Env, st: Planning)
    requires Keyed(env, st)
  {
    forall s :: s in SecondRoots(env) && s !in st.origin ==> st.plan.folders[s] == SharedNames(env, st.visited, s)
  }

  /** The roots are visited or queued, all items lie in every closed set holding the roots, and
      whatever a visited item appends is visited or queued. */
  ghost predicate Reached(env: Env, st: Planning) {
    ReachedBy(env, st.visited, st.todo)
  }

  ghost predicate ReachedBy(env: Env, visited: seq<Item>, todo: seq<Item>) {
    && ItemSet(RootItems(env.roots, env.id2)) <= ItemSet(visited) + ItemSet(todo)
    && (forall t :: ItemSet(RootItems(env.roots, env.id2)) <= t && ClosedItems(env, t) ==>
          ItemSet(visited) + ItemSet(todo) <= t)
    && (forall i, k :: 0 <= i < |visited| && Valid(env, visited[i]) && k in Kids(env, visited[i]) ==>
          k in ItemSet(visited) + ItemSet(todo))
  }

  ghost predicate PInv(env: Env, st: Planning) {
    Keyed(env, st) && Rooted(env, st) && Written(env, st) && Shared(env, st) && Reached(env, st)
  }

  /** One round of the `while` at :219-244 for a valid item. */
  function Visit(env: Env, st: Planning): Planning
    requires st.todo != [] && Valid(env, st.todo[0])
    requires st.todo[0].root2 in st.plan.folders
  {
    var it := st.todo[0];
    var m := ModuleAt(it.path).value;
    var k := FirstFolder(it.path, env.id1);
    var p1 := Put(st.plan, k, Elements(Kept(env, it)));
    var p2 := Share(p1, it.root2, env.second[m]);
    Planning(p2, st.todo[1..] + Kids(env, it), st.visited + [it], st.origin[k := it.path])
  }

  ghost predicate Visitable(env: Env, st: Planning) {
    st.todo != [] && Valid(env, st.todo[0]) && st.todo[0].root2 in st.plan.folders
  }

  lemma ItemSetConcat(a: seq<Item>, b: seq<Item>)
    ensures ItemSet(a + b) == ItemSet(a) + ItemSet(b)
  {
  }

  lemma KeyedStep(env: Env, plan: Plan, visited: seq<Item>, origin: map<Path, Path>, it: Item,
                  k0: Path, v: set<Name>, names: seq<Name>)
    requires KeyedBy(env, plan, visited, origin)
    requires it.root2 in plan.folders && k0 == FirstFolder(it.path, env.id1)
    ensures KeyedBy(env, Share(Put(plan, k0, v), it.root2, names), visited + [it], origin[k0 := it.path])
  {
    SharePutKeys(plan, k0, v, it.root2, names);
    FirstFoldersSnoc(env, visited, it);
    AddKey(SecondRoots(env), origin, k0, it.path);
  }

  lemma AddKey(fixed: set<Path>, origin: map<Path, Path>, k0: Path, x: Path)
    ensures (fixed + origin.Keys) + {k0} == fixed + origin[k0 := x].Keys
  {
  }

  /** Writing a key and widening a shared entry keep the plan ordered and add just that key. */
  lemma SharePutKeys(plan: Plan, k0: Path, v: set<Name>, s: Path, names: seq<Name>)
    requires Ordered(plan) && s in plan.folders
    ensures var r := Share(Put(plan, k0, v), s, names);
      Ordered(r) && r.folders.Keys == plan.folders.Keys + {k0}
  {
    var p1 := Put(plan, k0, v);
    assert Ordered(p1);
  }

  lemma FirstFoldersSnoc(env: Env, visited: seq<Item>, it: Item)
    ensures FirstFolders(env, visited + [it]) == FirstFolders(env, visited) + {FirstFolder(it.path, env.id1)}
  {
    assert (visited + [it])[..|visited|] == visited;
  }

  lemma VisitKeyed(env: Env, st: Planning)
    requires Visitable(env, st) && Keyed(env, st)
    ensures Keyed(env, Visit(env, st))
  {
    var it := st.todo[0];
    var k0 := FirstFolder(it.path, env.id1);
    KeyedStep(env, st.plan, st.visited, st.origin, it, k0, Elements(Kept(env, it)), env.second[ModuleAt(it.path).value]);
  }

  lemma VisitRooted(env: Env, st: Planning)
    requires Visitable(env, st) && Rooted(env, st)
    ensures Rooted(env, Visit(env, st))
  {
    var it := st.todo[0];
    var kids := Kids(env, it);
    var todo' := st.todo[1..] + kids;
    assert it.root2 in SecondRoots(env);
    forall i | 0 <= i < |todo'| ensures todo'[i].root2 in SecondRoots(env) {
      if i < |st.todo| - 1 {
        assert todo'[i] == st.todo[i + 1];
      } else {
        var f := FirstKids(it.path, it.root2, Kept(env, it), env.id1, env.search);
        var j := i - (|st.todo| - 1);
        assert todo'[i] == kids[j];
        if j < |f| { assert kids[j] == f[j]; } else { assert kids[j] == SecondKids(it.root2, env.second[ModuleAt(it.path).value], env.search)[j - |f|]; }
      }
    }
  }

  /** Writing the kept list of a valid item under its first-class key, then sharing its
      second-class names into its root's entry, keeps every key's writer recorded. */
  lemma WrittenStep(env: Env, plan: Plan, visited: seq<Item>, origin: map<Path, Path>, it: Item, k0: Path, p2: Plan)
    requires WrittenBy(env, plan, visited, origin) && Valid(env, it) && it.root2 in SecondRoots(env)
    requires it.root2 in plan.folders && k0 == FirstFolder(it.path, env.id1)
    requires p2 == Share(Put(plan, k0, Elements(Kept(env, it))), it.root2, env.second[ModuleAt(it.path).value])
    ensures WrittenBy(env, p2, visited + [it], origin[k0 := it.path])
  {
    assert (visited + [it])[..|visited|] == visited;
    assert VisitedPaths(visited + [it]) == VisitedPaths(visited) + {it.path};
  }

  lemma VisitWritten(env: Env, st: Planning)
    requires Visitable(env, st) && Keyed(env, st) && Rooted(env, st) && Written(env, st)
    ensures Written(env, Visit(env, st))
  {
    var it := st.todo[0];
    assert it.root2 in SecondRoots(env);
    var k0 := FirstFolder(it.path, env.id1);
    var p2 := Share(Put(st.plan, k0, Elements(Kept(env, it))), it.root2, env.second[ModuleAt(it.path).value]);
    WrittenStep(env, st.plan, st.visited, st.origin, it, k0, p2);
  }

  lemma VisitSharedAt(env: Env, st: Planning, s: Path)
    requires Visitable(env, st) && s in SecondRoots(env) && s in st.plan.folders
    requires s !in Visit(env, st).origin && st.plan.folders[s] == SharedNames(env, st.visited, s)
    ensures s in Visit(env, st).plan.folders && Visit(env, st).plan.folders[s] == SharedNames(env, Visit(env, st).visited, s)
  {
    var it := st.todo[0];
    var m := ModuleAt(it.path).value;
    var k := FirstFolder(it.path, env.id1);
    var p1 := Put(st.plan, k, Elements(Kept(env, it)));
    var st' := Visit(env, st);
    assert st'.visited[..|st'.visited| - 1] == st.visited;
    assert p1.folders[s] == st.plan.folders[s];
    if s == it.root2 {
      assert SharedNames(env, st'.visited, s) == SharedNames(env, st.visited, s) + Elements(env.second[m]);
    } else {
      assert SharedNames(env, st'.visited, s) == SharedNames(env, st.visited, s);
    }
  }

  lemma VisitShared(env: Env, st: Planning)
    requires Visitable(env, st) && Keyed(env, st) && Keyed(env, Visit(env, st)) && Shared(env, st)
    ensures Shared(env, Visit(env, st))
  {
    forall s | s in SecondRoots(env) && s !in Visit(env, st).origin
      ensures Visit(env, st).plan.folders[s] == SharedNames(env, Visit(env, st).visited, s)
    {
      VisitSharedAt(env, st, s);
    }
  }

  lemma VisitReached(env: Env, st: Planning)
    requires Visitable(env, st) && Reached(env, st)
    ensures Reached(env, Visit(env, st))
  {
    ReachedStep(env, st.visited, st.todo);
  }

  /** Moving the first item to the log and queueing its children keeps the items reached. */
  lemma ReachedStep(env: Env, visited: seq<Item>, todo: seq<Item>)
    requires ReachedBy(env, visited, todo) && todo != [] && Valid(env, todo[0])
    ensures ReachedBy(env, visited + [todo[0]], todo[1..] + Kids(env, todo[0]))
  {
    var it := todo[0];
    var visited', todo' := visited + [it], todo[1..] + Kids(env, it);
    var kids := Kids(env, it);
    assert todo == [it] + todo[1..];
    ItemSetConcat([it], todo[1..]);
    ItemSetConcat(todo[1..], kids);
    ItemSetConcat(visited, [it]);
    var before := ItemSet(visited) + ItemSet(todo);
    var after := ItemSet(visited') + ItemSet(todo');
    assert after == before + ItemSet(kids);
    forall t | ItemSet(RootItems(env.roots, env.id2)) <= t && ClosedItems(env, t) ensures after <= t {
      assert it in t;
      forall k | k in ItemSet(kids) ensures k in t {
        assert k in kids;
      }
    }
    forall i, k | 0 <= i < |visited'| && Valid(env, visited'[i]) && k in Kids(env, visited'[i])
      ensures k in after
    {
      if i < |visited| {
        assert visited'[i] == visited[i];
      } else {
        assert visited'[i] == it;
        assert k in ItemSet(kids);
      }
    }
  }

  lemma VisitKeeps(env: Env, st: Planning)
    requires Visitable(env, st) && PInv(env, st)
    ensures PInv(env, Visit(env, st))
  {
    VisitKeyed(env, st);
    VisitRooted(env, st);
    VisitWritten(env, st);
    VisitShared(env, st);
    VisitReached(env, st);
  }

  /** Why a run stops without a plan. */
  datatype Failure =
    | NoModuleName                  // `modulepath.split('/')[-2]` raises IndexError (:224)
    | NoFirstList(name: Name)       // `submodules1dict[modulename]` raises KeyError (:226)
    | NoSecondList(name: Name)      // `submodules2dict[modulename]` raises KeyError (:236)

  /** Which of the lookups at :224, :226 and :236 fails for an item, if any. */
  function Diagnose(env: Env, it: Item): (r: Option<Failure>)
    ensures r.None? <==> Valid(env, it)
    ensures r == Some(NoModuleName) <==> ModuleAt(it.path).None?
    ensures forall n :: r == Some(NoFirstList(n)) <==> ModuleAt(it.path) == Some(n) && n !in env.first
    ensures forall n :: r == Some(NoSecondList(n)) <==> ModuleAt(it.path) == Some(n) && n in env.first && n !in env.second
  {
    match ModuleAt(it.path)
    case None => Some(NoModuleName)
    case Some(n) =>
      if n !in env.first then Some(NoFirstList(n))
      else if n !in env.second then Some(NoSecondList(n))
      else None
  }

  datatype PlanResult =
    | Planned(plan: Plan)
    | Failed(item: Item, why: Failure)
      /** The fuel ran out with items still queued: the second-class expansion at
          :242-244 has no cycle guard, and Python's loop may not end. */
    | OutOfFuel

  lemma RootFoldersStep(roots: seq<Path>, id2: Name, i: nat)
    requires i < |roots|
    ensures (set j | 0 <= j < i + 1 :: SecondRoot(roots[j], id2))
      == (set j | 0 <= j < i :: SecondRoot(roots[j], id2)) + {SecondRoot(roots[i], id2)}
  {
  }

  /** An empty entry put into an ordered plan of empty entries. */
  lemma PutEmpty(p: Plan, keys: set<Path>, f: Path)
    requires Ordered(p) && p.folders.Keys == keys && forall k :: k in p.folders ==> p.folders[k] == {}
    ensures var r := Put(p, f, {});
      Ordered(r) && r.folders.Keys == keys + {f} && forall k :: k in r.folders ==> r.folders[k] == {}
  {
  }

  /** The loop at :213-214: an empty shared entry for each root, in root order. */
  method SeedFolders(roots: seq<Path>, id2: Name) returns (plan: Plan)
    ensures Ordered(plan)
    ensures plan.folders.Keys == set i | 0 <= i < |roots| :: SecondRoot(roots[i], id2)
    ensures forall k :: k in plan.folders ==> plan.folders[k] == {}
  {
    plan := Plan([], map[]);
    for i := 0 to |roots|
      invariant Ordered(plan)
      invariant plan.folders.Keys == set j | 0 <= j < i :: SecondRoot(roots[j], id2)
      invariant forall k :: k in plan.folders ==> plan.folders[k] == {}
    {
      RootFoldersStep(roots, id2, i);
      PutEmpty(plan, set j | 0 <= j < i :: SecondRoot(roots[j], id2), SecondRoot(roots[i], id2));
      plan := Put(plan, SecondRoot(roots[i], id2), {});
    }
  }

  /** The list at :218: one item per root. */
  method SeedItems(roots: seq<Path>, id2: Name) returns (todo: seq<Item>)
    ensures todo == RootItems(roots, id2)
  {
    todo := [];
    for i := 0 to |roots|
      invariant todo == RootItems(roots[..i], id2)
    {
      assert RootItems(roots[..i + 1], id2) == RootItems(roots[..i], id2) + [Item(roots[i], SecondRoot(roots[i], id2))];
      todo := todo + [Item(roots[i], SecondRoot(roots[i], id2))];
    }
    assert roots[..|roots|] == roots;
  }

  /** The loop at :239-241. */
  method AppendFirstKids(todo: seq<Item>, mp: Path, root2: Path, names: seq<Name>, id1: Name, search: Option<seq<Name>>)
    returns (r: seq<Item>)
    ensures r == todo + FirstKids(mp, root2, names, id1, search)
  {
    r := todo;
    for j := 0 to |names|
      invariant r == todo + FirstKids(mp, root2, names[..j], id1, search)
    {
      assert names[..j + 1][..j] == names[..j];
      if search.Some? && names[j] in search.value {
        r := r + [Item(Join(Join(mp, id1), names[j]) + "/", root2)];
      }
    }
    assert names[..|names|] == names;
  }

  /** The loop at :242-244. */
  method AppendSecondKids(todo: seq<Item>, root2: Path, names: seq<Name>, search: Option<seq<Name>>)
    returns (r: seq<Item>)
    ensures r == todo + SecondKids(root2, names, search)
  {
    r := todo;
    for j := 0 to |names|
      invariant r == todo + SecondKids(root2, names[..j], search)
    {
      assert names[..j + 1][..j] == names[..j];
      if search.Some? && names[j] in search.value {
        r := r + [Item(Join(root2, names[j]) + "/", root2)];
      }
    }
    assert names[..|names|] == names;
  }

  lemma PlanInitially(env: Env, plan: Plan, todo: seq<Item>)
    requires Ordered(plan) && plan.folders.Keys == SecondRoots(env)
    requires forall k :: k in plan.folders ==> plan.folders[k] == {}
    requires todo == RootItems(env.roots, env.id2)
    ensures PInv(env, Planning(plan, todo, [], map[]))
  {
    var st := Planning(plan, todo, [], map[]);
    assert Keyed(env, st);
    assert Rooted(env, st) by {
      forall i | 0 <= i < |todo| ensures todo[i].root2 in SecondRoots(env) {
        assert todo[i].root2 == SecondRoot(env.roots[i], env.id2);
      }
    }
    assert Written(env, st);
    assert Shared(env, st);
    assert Reached(env, st) by {
      assert ItemSet([]) == {};
    }
  }

  /** A queued item lies in every closed set holding the roots. */
  lemma QueuedReached(env: Env, st: Planning)
    requires Reached(env, st) && st.todo != []
    ensures forall t :: ItemSet(RootItems(env.roots, env.id2)) <= t && ClosedItems(env, t) ==> st.todo[0] in t
  {
    assert st.todo[0] in ItemSet(st.todo);
  }

  lemma QueuedRooted(env: Env, st: Planning)
    requires Keyed(env, st) && Rooted(env, st) && st.todo != []
    ensures st.todo[0].root2 in st.plan.folders
  {
  }

  /** The body of the `while` at :219-244 for an item whose lookups succeed: the entry at
      :233, the union at :236 and the two loops at :239-244. */
  method VisitOne(env: Env, plan: Plan, todo: seq<Item>, ghost st: Planning) returns (plan': Plan, todo': seq<Item>)
    requires st.plan == plan && st.todo == todo && Visitable(env, st)
    ensures plan' == Visit(env, st).plan && todo' == Visit(env, st).todo
  {
    var it := todo[0];
    var m := ModuleAt(it.path).value;
    var kept := DropCircular(env.first[m], env.id1, it.path);
    plan' := Put(plan, FirstFolder(it.path, env.id1), Elements(kept));
    plan' := Share(plan', it.root2, env.second[m]);
    todo' := AppendFirstKids(todo[1..], it.path, it.root2, kept, env.id1, env.search);
    todo' := AppendSecondKids(todo', it.root2, env.second[m], env.search);
  }

  /** The `while` at :219-244, for at most `fuel` rounds. */
  method PlanAll(env: Env, plan0: Plan, todo0: seq<Item>, fuel: nat) returns (res: PlanResult, ghost st: Planning)
    requires PInv(env, Planning(plan0, todo0, [], map[]))
    ensures res.Planned? ==> PInv(env, st) && st.todo == [] && res.plan == st.plan
    ensures res.Failed? ==> (!Valid(env, res.item) &&
      forall t :: ItemSet(RootItems(env.roots, env.id2)) <= t && ClosedItems(env, t) ==> res.item in t)
    ensures res.Failed? ==> Diagnose(env, res.item) == Some(res.why)
  {
    var plan := plan0;
    var todo := todo0;
    ghost var visited: seq<Item> := [];
    ghost var origin: map<Path, Path> := map[];
    var left := fuel;
    while todo != []
      invariant PInv(env, Planning(plan, todo, visited, origin))
      decreases left
    {
      st := Planning(plan, todo, visited, origin);
      if left == 0 {
        res := OutOfFuel;
        return;
      }
      left := left - 1;
      var it := todo[0];
      var why := Diagnose(env, it);
      if why.Some? {
        QueuedReached(env, st);
        res := Failed(it, why.value);
        return;
      }
      QueuedRooted(env, st);
      plan, todo := VisitOne(env, plan, todo, st);
      VisitKeeps(env, st);
      visited := visited + [it];
      origin := origin[FirstFolder(it.path, env.id1) := it.path];
    }
    st := Planning(plan, todo, visited, origin);
    res := Planned(plan);
  }

  /** With the queue empty, the dictionary holds a key for every root and for every visit, and
      no first-class entry holds a name that nests its module inside itself. */
  lemma PlanFinishedKeys(env: Env, st: Planning)
    requires PInv(env, st)
    ensures Ordered(st.plan)
    ensures forall i :: 0 <= i < |env.roots| ==> SecondRoot(env.roots[i], env.id2) in st.plan.folders
    ensures st.plan.folders.Keys == SecondRoots(env) + FirstFolders(env, st.visited)
    ensures forall k :: k in st.origin && k !in SecondRoots(env) ==>
      k in st.plan.folders && forall x :: x in st.plan.folders[k] ==> !Circular(env.id1, x, st.origin[k])
  {
    forall i | 0 <= i < |env.roots| ensures SecondRoot(env.roots[i], env.id2) in st.plan.folders {
      assert SecondRoot(env.roots[i], env.id2) in SecondRoots(env);
    }
  }

  /** With the queue empty, the visits are the least closed set of items holding the roots. */
  lemma PlanFinishedReach(env: Env, st: Planning)
    requires Reached(env, st) && st.todo == []
    ensures ItemSet(RootItems(env.roots, env.id2)) <= ItemSet(st.visited)
    ensures ClosedItems(env, ItemSet(st.visited))
    ensures forall t :: ItemSet(RootItems(env.roots, env.id2)) <= t && ClosedItems(env, t) ==> ItemSet(st.visited) <= t
  {
    assert ItemSet(st.todo) == {};
    forall it, k | it in ItemSet(st.visited) && Valid(env, it) && k in Kids(env, it) ensures k in ItemSet(st.visited) {
      var i :| 0 <= i < |st.visited| && st.visited[i] == it;
    }
  }

  /** `getsubmodulepathdicts`, for at most `fuel` rounds of its `while` loop. On success the
      dictionary has a `submodules2/` entry for every root (:213-214) and a `submodules/` entry
      for every module visited; a `submodules/` entry never holds a name that would nest the
      module inside itself (:227-233); each shared entry holds the second-class names of the
      visits that share it (:236, as intended); and the visits are exactly what the roots reach. */
  method GetSubmodulePathDicts(roots: seq<Path>, first: map<Name, seq<Name>>, second: map<Name, seq<Name>>,
                               id1: Name, id2: Name, search: Option<seq<Name>>, fuel: nat)
    returns (res: PlanResult, ghost visited: seq<Item>, ghost origin: map<Path, Path>)
    ensures var env := Env(roots, first, second, id1, id2, search);
      res.Planned? ==>
        && Ordered(res.plan)
        && (forall i :: 0 <= i < |roots| ==> SecondRoot(roots[i], id2) in res.plan.folders)
        && res.plan.folders.Keys == SecondRoots(env) + FirstFolders(env, visited)
        && (forall k :: k in origin && k !in SecondRoots(env) ==>
              k in res.plan.folders && forall x :: x in res.plan.folders[k] ==> !Circular(id1, x, origin[k]))
        && (forall k :: k in origin && k !in SecondRoots(env) ==>
              && k == FirstFolder(origin[k], id1) && origin[k] in VisitedPaths(visited)
              && ModuleAt(origin[k]).Some? && ModuleAt(origin[k]).value in first
              && res.plan.folders[k] == Elements(DropCircular(first[ModuleAt(origin[k]).value], id1, origin[k])))
        && (forall s :: s in SecondRoots(env) && s !in origin ==> res.plan.folders[s] == SharedNames(env, visited, s))
        && ItemSet(RootItems(roots, id2)) <= ItemSet(visited)
        && ClosedItems(env, ItemSet(visited))
        && (forall t :: ItemSet(RootItems(roots, id2)) <= t && ClosedItems(env, t) ==> ItemSet(visited) <= t)
    ensures var env := Env(roots, first, second, id1, id2, search);
      res.Failed? ==> (Diagnose(env, res.item) == Some(res.why) &&
        forall t :: ItemSet(RootItems(roots, id2)) <= t && ClosedItems(env, t) ==> res.item in t)
  {
    var env := Env(roots, first, second, id1, id2, search);
    var plan := SeedFolders(roots, id2);
    var todo := SeedItems(roots, id2);
    PlanInitially(env, plan, todo);
    ghost var st;
    res, st := PlanAll(env, plan, todo, fuel);
    visited, origin := st.visited, st.origin;
    if res.Planned? {
      PlanFinishedKeys(env, st);
      PlanFinishedReach(env, st);
    }
  }
}
