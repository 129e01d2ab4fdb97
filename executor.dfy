/** `addlocalsubmodules` (mysubmodules_func.py:249-319): it carries out a plan of
    `submodules/` and `submodules2/` folders on the filesystem. Each planned folder is first
    brought to shape: deleted when nothing is planned in it, otherwise created or stripped of
    unplanned children. Then each planned name is copied in from its local checkout (by
    `rsync`, or by `git clone` in clone mode), else cloned from its remote repository, else
    skipped. */
module Executor {
  import opened Names
  import opened Paths
  import opened Files
  import Planner

  /** Where a planned module is copied from (:284, :309, :318). */
  datatype Source = Local(from: Path) | Remote(repo: string) | NoSource

  /** The executor's options: `submodulepathdict`, `gitclonedict` (`None` is the empty dictionary,
      :256-257), `submodulename1`/`submodulename2` as the rsync exclusions, `rsync_gitskip` and
      `gitclonelocal`. */
  datatype Config = Config(local: map<Name, Path>, remote: map<Name, string>,
                           id1: Option<Name>, id2: Option<Name>, gitskip: bool, viaClone: bool)

  /** The outcome of an external command: does it leave a directory at its destination?
      The source ignores the exit status of `subprocess.call`. */
  type Tool = seq<string> -> bool

  function SourceOf(cfg: Config, x: Name): Source {
    if x in cfg.local then Local(cfg.local[x])
    else if x in cfg.remote then Remote(cfg.remote[x])
    else NoSource
  }

  /** The `rsync` argument list at :294-301. */
  function RsyncArgsSync(src: Path, dest: Path, id1: Option<Name>, id2: Option<Name>, gitskip: bool): seq<string> {
    ["rsync", "-a", "--delete", src, dest]
      + (if id1.Some? then ["--exclude", id1.value] else [])
      + (if id2.Some? then ["--exclude", id2.value] else [])
      + (if gitskip then ["--exclude", ".git/*", "--delete-excluded"] else [])
  }

  function GitCloneArgs(repo: string, dest: Path): seq<string> {
    ["git", "clone", repo, dest]
  }

  /** The command run for planned name `x` in folder `k`; `None` when there is nowhere to copy from. */
  function CommandFor(k: Path, x: Name, cfg: Config): Option<seq<string>> {
    match SourceOf(cfg, x)
    case Local(from) =>
      Some(if cfg.viaClone then GitCloneArgs(from, Join(k, x))
           else RsyncArgsSync(from, Join(k, x), cfg.id1, cfg.id2, cfg.gitskip))
    case Remote(repo) => Some(GitCloneArgs(repo, Join(k, x) + "/"))
    case NoSource => None
  }

  /** Whether the destination is deleted before the command runs (:286-288, :312-314). */
  predicate ClearsFirst(cfg: Config, x: Name) {
    match SourceOf(cfg, x)
    case Local(_) => cfg.viaClone
    case Remote(_) => true
    case NoSource => false
  }

  /** The filesystem after copying planned name `x` into folder `k`. */
  function CopyOne(n: Nodes, k: Path, x: Name, cfg: Config, ran: Tool): Nodes {
    var dest := Join(k, x);
    match CommandFor(k, x, cfg)
    case None => n
    case Some(cmd) =>
      var m := if ClearsFirst(cfg, x) && Present(n, dest) then Removed(n, Canon(dest)) else n;
      if ran(cmd) then m[Canon(dest) := Dir] else m
  }

  /** Copying the names of `xs` in turn. */
  function CopyAll(n: Nodes, k: Path, xs: seq<Name>, cfg: Config, ran: Tool): Nodes
    decreases |xs|
  {
    if xs == [] then n else CopyOne(CopyAll(n, k, xs[..|xs| - 1], cfg, ran), k, xs[|xs| - 1], cfg, ran)
  }

  /** Bringing folder `k` to shape for the planned `names` (:262-279); `None` where `os.mkdir` raises. */
  ghost function Prepare(n: Nodes, k: Path, names: set<Name>): Option<Nodes> {
    if names == {} then Some(if Present(n, k) then Removed(n, Canon(k)) else n)
    else if DirIn(n, k) then Some(Pruned(n, Canon(k), names))
    else if CanMkdir(n, k) then Some(n[Canon(k) := Dir])
    else None
  }

  /** One round of the loop at :259-319, copying the names in the order `xs`. */
  ghost function FolderStep(n: Nodes, k: Path, names: set<Name>, xs: seq<Name>, cfg: Config, ran: Tool): Option<Nodes> {
    match Prepare(n, k, names)
    case None => None
    case Some(m) => Some(CopyAll(m, k, xs, cfg, ran))
  }

  /** The first `|orders|` rounds, the i-th copying its names in the order `orders[i]`. */
  ghost function RunPrefix(n: Nodes, keys: seq<Path>, folders: map<Path, set<Name>>, orders: seq<seq<Name>>,
                           cfg: Config, ran: Tool): Option<Nodes>
    requires |orders| <= |keys| && forall j :: 0 <= j < |orders| ==> keys[j] in folders
    decreases |orders|, 2
  {
    if orders == [] then Some(n) else Rounds(n, keys, folders, orders, cfg, ran)
  }

  /** At least one round: the earlier rounds, and the last one unless an earlier one raised. */
  ghost function Rounds(n: Nodes, keys: seq<Path>, folders: map<Path, set<Name>>, orders: seq<seq<Name>>,
                        cfg: Config, ran: Tool): Option<Nodes>
    requires 0 < |orders| <= |keys| && forall j :: 0 <= j < |orders| ==> keys[j] in folders
    decreases |orders|, 1
  {
    if RunPrefix(n, keys, folders, orders[..|orders| - 1], cfg, ran).None? then None
    else LastRound(n, keys, folders, orders, cfg, ran)
  }

  /** The last of the rounds, after the earlier ones. */
  ghost function LastRound(n: Nodes, keys: seq<Path>, folders: map<Path, set<Name>>, orders: seq<seq<Name>>,
                           cfg: Config, ran: Tool): Option<Nodes>
    requires 0 < |orders| <= |keys| && forall j :: 0 <= j < |orders| ==> keys[j] in folders
    requires RunPrefix(n, keys, folders, orders[..|orders| - 1], cfg, ran).Some?
    decreases |orders|, 0
  {
    var i := |orders| - 1;
    FolderStep(RunPrefix(n, keys, folders, orders[..i], cfg, ran).value, keys[i], folders[keys[i]], orders[i], cfg, ran)
  }

  /** Names a folder can hold as children. */
  predicate ChildNames(names: set<Name>) {
    forall x :: x in names ==> x != "" && SlashFree(x)
  }

  /** A folder with nothing planned is deleted with everything below it when `lexists` sees it,
      and otherwise nothing changes: a plan key `P/` naming a regular file `P` leaves the file
      (the trailing `/` makes `lexists` false). Nothing outside the folder changes. */
  lemma PrepareEmpty(n: Nodes, k: Path)
    ensures Prepare(n, k, {}).Some?
    ensures !RootPath(k) ==> !Present(Prepare(n, k, {}).value, k)
    ensures Present(n, k) ==> forall p :: p in Prepare(n, k, {}).value ==> !Under(p, Canon(k))
    ensures !Present(n, k) ==> Prepare(n, k, {}).value == n
    ensures EndsWithSlash(k) && !RootPath(k) && Canon(k) in n && n[Canon(k)] == File ==> Prepare(n, k, {}).value == n
    ensures forall p :: !Under(p, Canon(k)) ==> (p in Prepare(n, k, {}).value <==> p in n)
  {
  }

  /** A folder with something planned ends up a directory whose children are exactly the
      planned ones it already had; this fails only where `os.mkdir` raises. */
  lemma PrepareNonEmpty(n: Nodes, k: Path, names: set<Name>)
    requires names != {} && Rooted(n)
    ensures Prepare(n, k, names).Some? <==> DirIn(n, k) || CanMkdir(n, k)
    ensures Prepare(n, k, names).Some? ==>
      && DirIn(Prepare(n, k, names).value, k)
      && Children(Prepare(n, k, names).value, Canon(k)) == Children(n, Canon(k)) * names
    ensures Prepare(n, k, names).Some? ==>
      forall p :: !Under(p, Canon(k)) ==> (p in Prepare(n, k, names).value <==> p in n)
  {
    var c := Canon(k);
    PrunedChildren(n, c, names);
    if !DirIn(n, k) && CanMkdir(n, k) {
      ParentOfChildren(n, c);
      var m := n[c := Dir];
      assert Children(m, c) == Children(n, c);
    }
  }

  /** Copying one name touches only the destination's subtree, leaves a directory there when
      the command runs, keeps an existing child it does not clear first, and does nothing at
      all for a name that has neither a local checkout nor a remote repository. */
  lemma CopyOneFacts(m: Nodes, k: Path, x: Name, cfg: Config, ran: Tool)
    requires k != "" && x != "" && SlashFree(x)
    ensures var r, d := CopyOne(m, k, x, cfg, ran), Canon(k) + "/" + x;
      && (forall p :: !Under(p, d) ==> (p in r <==> p in m) && (p in m ==> r[p] == m[p]))
      && (CommandFor(k, x, cfg).Some? && ran(CommandFor(k, x, cfg).value) ==> d in r && r[d] == Dir)
      && (!ClearsFirst(cfg, x) && d in m ==> d in r)
      && (CommandFor(k, x, cfg).None? ==> r == m)
  {
    CanonJoin(k, x);
  }

  /** A name with a local checkout is copied from it, whatever the remote dictionary says. */
  lemma LocalWins(n: Nodes, k: Path, x: Name, cfg: Config, ran: Tool, remote: map<Name, string>)
    requires x in cfg.local
    ensures CommandFor(k, x, cfg) == Some(
      if cfg.viaClone then GitCloneArgs(cfg.local[x], Join(k, x))
      else RsyncArgsSync(cfg.local[x], Join(k, x), cfg.id1, cfg.id2, cfg.gitskip))
    ensures CopyOne(n, k, x, cfg, ran) == CopyOne(n, k, x, cfg.(remote := remote), ran)
  {
  }

  lemma ChildrenAfterCopy(m: Nodes, k: Path, x: Name, cfg: Config, ran: Tool)
    requires k != "" && x != "" && SlashFree(x)
    ensures var r, c := CopyOne(m, k, x, cfg, ran), Canon(k);
      forall y :: y != x ==> (y in Children(r, c) <==> y in Children(m, c))
    ensures Children(CopyOne(m, k, x, cfg, ran), Canon(k)) <= Children(m, Canon(k)) + {x}
  {
    var r, c := CopyOne(m, k, x, cfg, ran), Canon(k);
    CopyOneFacts(m, k, x, cfg, ran);
    forall y | y != x ensures y in Children(r, c) <==> y in Children(m, c) {
      if y != "" && SlashFree(y) {
        ChildUnderChild(c, y, x);
        if y in Children(r, c) { ChildKey(r, c, y); ChildOfKey(m, c, y); }
        if y in Children(m, c) { ChildKey(m, c, y); ChildOfKey(r, c, y); }
      } else {
        if y in Children(r, c) { ChildKey(r, c, y); }
        if y in Children(m, c) { ChildKey(m, c, y); }
      }
    }
  }

  /** Copying a folder's names keeps it a directory holding planned children only, and
      changes nothing outside it. */
  lemma {:induction false} CopyAllShape(m: Nodes, k: Path, xs: seq<Name>, names: set<Name>, cfg: Config, ran: Tool)
    requires k != "" && ChildNames(names) && Elements(xs) <= names
    requires DirIn(m, k) && Children(m, Canon(k)) <= names
    ensures var r, c := CopyAll(m, k, xs, cfg, ran), Canon(k);
      && DirIn(r, k)
      && Children(r, c) <= names
      && (forall p :: !Under(p, c) ==> (p in r <==> p in m) && (p in m ==> r[p] == m[p]))
    decreases |xs|
  {
    if xs != [] {
      var c, x, ys := Canon(k), xs[|xs| - 1], xs[..|xs| - 1];
      assert Elements(ys) <= names by {
        forall y | y in ys ensures y in names { assert y in xs; }
      }
      assert x in names by { assert x in Elements(xs); }
      CopyAllShape(m, k, ys, names, cfg, ran);
      var q := CopyAll(m, k, ys, cfg, ran);
      CopyOneFacts(q, k, x, cfg, ran);
      ChildrenAfterCopy(q, k, x, cfg, ran);
      assert !Under(c, c + "/" + x);
      forall p | Under(p, c + "/" + x) ensures Under(p, c) {
        assert p[..|c|] == c;
      }
    }
  }

  /** Every name whose copy command ran is a child of the folder afterwards. */
  lemma {:induction false} CopyAllRan(m: Nodes, k: Path, xs: seq<Name>, cfg: Config, ran: Tool)
    requires k != "" && ChildNames(Elements(xs))
    requires forall i, j :: 0 <= i < j < |xs| ==> xs[i] != xs[j]
    ensures forall y :: y in xs && CommandFor(k, y, cfg).Some? && ran(CommandFor(k, y, cfg).value) ==>
      y in Children(CopyAll(m, k, xs, cfg, ran), Canon(k))
    decreases |xs|
  {
    if xs != [] {
      var c, i := Canon(k), |xs| - 1;
      var x, ys := xs[i], xs[..i];
      assert x in Elements(xs);
      assert ChildNames(Elements(ys)) by {
        forall y | y in ys ensures y in Elements(xs) { assert y in xs; }
      }
      CopyAllRan(m, k, ys, cfg, ran);
      var q := CopyAll(m, k, ys, cfg, ran);
      var r := CopyOne(q, k, x, cfg, ran);
      CopyOneFacts(q, k, x, cfg, ran);
      ChildrenAfterCopy(q, k, x, cfg, ran);
      CanonJoin(k, x);
      forall y | y in xs && CommandFor(k, y, cfg).Some? && ran(CommandFor(k, y, cfg).value) ensures y in Children(r, c) {
        if y == x {
          ChildOfKey(r, c, x);
        } else {
          var j :| 0 <= j < |xs| && xs[j] == y;
          assert j < i && ys[j] == y;
        }
      }
    }
  }

  /** An earlier child survives the copies unless it was cleared for a clone. */
  lemma {:induction false} CopyAllKeeps(m: Nodes, k: Path, xs: seq<Name>, cfg: Config, ran: Tool)
    requires k != "" && ChildNames(Elements(xs))
    ensures forall y :: y in Children(m, Canon(k)) && (y !in xs || !ClearsFirst(cfg, y)) ==>
      y in Children(CopyAll(m, k, xs, cfg, ran), Canon(k))
    decreases |xs|
  {
    if xs != [] {
      var c, i := Canon(k), |xs| - 1;
      var x, ys := xs[i], xs[..i];
      assert x in Elements(xs);
      assert ChildNames(Elements(ys)) by {
        forall y | y in ys ensures y in Elements(xs) { assert y in xs; }
      }
      CopyAllKeeps(m, k, ys, cfg, ran);
      var q := CopyAll(m, k, ys, cfg, ran);
      var r := CopyOne(q, k, x, cfg, ran);
      ChildrenAfterCopy(q, k, x, cfg, ran);
      forall y | y in Children(m, c) && (y !in xs || !ClearsFirst(cfg, y)) ensures y in Children(r, c) {
        assert y in ys ==> y in xs;
        if y == x {
          CopyOneFacts(q, k, x, cfg, ran);
          ChildKey(q, c, y);
          ChildOfKey(r, c, y);
        }
      }
    }
  }

  /** A name with nowhere to copy from is not created, nor is a name not copied at all. */
  lemma {:induction false} CopyAllSkips(m: Nodes, k: Path, xs: seq<Name>, cfg: Config, ran: Tool)
    requires k != "" && ChildNames(Elements(xs))
    ensures forall y :: y !in Children(m, Canon(k)) && (y in xs ==> CommandFor(k, y, cfg).None?) ==>
      y !in Children(CopyAll(m, k, xs, cfg, ran), Canon(k))
    decreases |xs|
  {
    if xs != [] {
      var c, i := Canon(k), |xs| - 1;
      var x, ys := xs[i], xs[..i];
      assert x in Elements(xs);
      assert ChildNames(Elements(ys)) by {
        forall y | y in ys ensures y in Elements(xs) { assert y in xs; }
      }
      CopyAllSkips(m, k, ys, cfg, ran);
      var q := CopyAll(m, k, ys, cfg, ran);
      ChildrenAfterCopy(q, k, x, cfg, ran);
      CopyOneFacts(q, k, x, cfg, ran);
      assert forall y :: y in ys ==> y in xs;
    }
  }

  /** A round for a folder with nothing planned deletes it and its subtree when `lexists` sees
      it, and otherwise changes nothing, so a regular file `P` under a plan key `P/` is kept. */
  lemma FolderStepEmpty(n: Nodes, k: Path, cfg: Config, ran: Tool)
    ensures FolderStep(n, k, {}, [], cfg, ran).Some?
    ensures !RootPath(k) ==> !Present(FolderStep(n, k, {}, [], cfg, ran).value, k)
    ensures Present(n, k) ==> FolderStep(n, k, {}, [], cfg, ran).value == Removed(n, Canon(k))
    ensures !Present(n, k) ==> FolderStep(n, k, {}, [], cfg, ran).value == n
    ensures EndsWithSlash(k) && !RootPath(k) && Canon(k) in n && n[Canon(k)] == File ==> FolderStep(n, k, {}, [], cfg, ran).value == n
  {
    PrepareEmpty(n, k);
  }

  /** A round for a folder with something planned, on a rooted tree, leaves a directory holding
      planned children only; a planned child that was already there is still there unless it
      was cleared for a clone, every name whose copy ran is there, and a name with nowhere to
      copy from is not created. The round fails only where `os.mkdir` raises. */
  lemma FolderStepNonEmpty(n: Nodes, k: Path, names: set<Name>, xs: seq<Name>, cfg: Config, ran: Tool)
    requires names != {} && ChildNames(names) && Enumerates(xs, names) && Rooted(n)
    ensures FolderStep(n, k, names, xs, cfg, ran).Some? <==> DirIn(n, k) || CanMkdir(n, k)
    ensures var c := Canon(k); FolderStep(n, k, names, xs, cfg, ran).Some? ==>
      var r := FolderStep(n, k, names, xs, cfg, ran).value;
      && DirIn(r, k)
      && Children(r, c) <= names
      && (forall y :: y in Children(n, c) && y in names && !ClearsFirst(cfg, y) ==> y in Children(r, c))
      && (forall y :: y in names && CommandFor(k, y, cfg).Some? && ran(CommandFor(k, y, cfg).value) ==> y in Children(r, c))
      && (forall y :: y in names && CommandFor(k, y, cfg).None? && y !in Children(n, c) ==> y !in Children(r, c))
      && (forall p :: !Under(p, c) ==> (p in r <==> p in n))
  {
    PrepareNonEmpty(n, k, names);
    if DirIn(n, k) || CanMkdir(n, k) {
      var m := Prepare(n, k, names).value;
      CopyAllShape(m, k, xs, names, cfg, ran);
      CopyAllRan(m, k, xs, cfg, ran);
      CopyAllKeeps(m, k, xs, cfg, ran);
      CopyAllSkips(m, k, xs, cfg, ran);
    }
  }

  lemma RunPrefixStep(n: Nodes, keys: seq<Path>, folders: map<Path, set<Name>>, orders: seq<seq<Name>>,
                      xs: seq<Name>, m: Nodes, m': Nodes, cfg: Config, ran: Tool)
    requires |orders| < |keys| && forall j :: 0 <= j < |keys| ==> keys[j] in folders
    requires RunPrefix(n, keys, folders, orders, cfg, ran) == Some(m)
    requires FolderStep(m, keys[|orders|], folders[keys[|orders|]], xs, cfg, ran) == Some(m')
    ensures RunPrefix(n, keys, folders, orders + [xs], cfg, ran) == Some(m')
  {
    var o := orders + [xs];
    assert o[..|orders|] == orders;
    assert Rounds(n, keys, folders, o, cfg, ran) == LastRound(n, keys, folders, o, cfg, ran);
  }

  datatype Outcome = Done | Raised(path: Path)

  /** Lines :262-279 for one planned folder. */
  method PrepareFolder(fs: FileSystem, k: Path, names: set<Name>) returns (ok: bool)
    modifies fs
    ensures ok == Prepare(old(fs.nodes), k, names).Some?
    ensures fs.nodes == if ok then Prepare(old(fs.nodes), k, names).value else old(fs.nodes)
  {
    if names == {} {
      if fs.Exists(k) {
        fs.RmRecursive(k);
      }
      ok := true;
    } else if fs.IsDir(k) {
      fs.PruneChildren(k, names);
      ok := true;
    } else {
      ok := fs.Mkdir(k);
    }
  }

  /** Lines :282-319 for one planned name. */
  method CopyName(fs: FileSystem, k: Path, x: Name, cfg: Config, ran: Tool)
    modifies fs
    ensures fs.nodes == CopyOne(old(fs.nodes), k, x, cfg, ran)
  {
    var dest := Join(k, x);
    match SourceOf(cfg, x)
    case Local(from) =>
      var cmd;
      if cfg.viaClone {
        if fs.Exists(dest) {
          fs.RmRecursive(dest);
        }
        cmd := GitCloneArgs(from, dest);
      } else {
        cmd := RsyncArgsSync(from, dest, cfg.id1, cfg.id2, cfg.gitskip);
      }
      if ran(cmd) {
        fs.Materialize(dest);
      }
    case Remote(repo) =>
      if fs.Exists(dest) {
        fs.RmRecursive(dest);
      }
      var cmd := GitCloneArgs(repo, dest + "/");
      if ran(cmd) {
        fs.Materialize(dest);
      }
    case NoSource =>
  }

  /** The loop at :281-319 over a folder's planned names, in the set's iteration order `xs`. */
  method CopyNames(fs: FileSystem, k: Path, names: set<Name>, cfg: Config, ran: Tool) returns (ghost xs: seq<Name>)
    modifies fs
    ensures Enumerates(xs, names)
    ensures fs.nodes == CopyAll(old(fs.nodes), k, xs, cfg, ran)
  {
    var left := names;
    xs := [];
    while left != {}
      invariant Elements(xs) + left == names
      invariant forall x :: x in left ==> x !in xs
      invariant forall i, j :: 0 <= i < j < |xs| ==> xs[i] != xs[j]
      invariant fs.nodes == CopyAll(old(fs.nodes), k, xs, cfg, ran)
      decreases left
    {
      var x :| x in left;
      CopyName(fs, k, x, cfg, ran);
      assert (xs + [x])[..|xs|] == xs;
      xs := xs + [x];
      left := left - {x};
    }
  }

  /** Preparing a folder keeps the tree rooted. */
  lemma PrepareKeepsRooted(n: Nodes, k: Path, names: set<Name>)
    requires Rooted(n) && Prepare(n, k, names).Some?
    ensures Rooted(Prepare(n, k, names).value)
  {
    if names == {} {
      if Present(n, k) { RemovedKeepsRooted(n, Canon(k)); }
    } else if DirIn(n, k) {
      PrunedKeepsRooted(n, Canon(k), names);
    } else {
      AddDirKeepsRooted(n, Canon(k));
    }
  }

  /** Copying a child name into a directory keeps the tree rooted and the folder a directory. */
  lemma CopyOneKeepsRooted(m: Nodes, k: Path, x: Name, cfg: Config, ran: Tool)
    requires Rooted(m) && DirIn(m, k) && x != "" && SlashFree(x)
    ensures Rooted(CopyOne(m, k, x, cfg, ran)) && DirIn(CopyOne(m, k, x, cfg, ran), k)
  {
    var c, d := Canon(k), Canon(k) + "/" + x;
    CanonJoin(k, x);
    CopyOneFacts(m, k, x, cfg, ran);
    assert !Under(c, d);
    match CommandFor(k, x, cfg)
    case None =>
    case Some(cmd) =>
      var q := if ClearsFirst(cfg, x) && Present(m, Join(k, x)) then Removed(m, d) else m;
      if ClearsFirst(cfg, x) && Present(m, Join(k, x)) {
        RemovedKeepsRooted(m, d);
      }
      if c != "" {
        assert c in q && q[c] == Dir;
      }
      if ran(cmd) {
        ChildParent(c, x);
        AddDirKeepsRooted(q, d);
      }
  }

  lemma {:induction false} CopyAllKeepsRooted(m: Nodes, k: Path, xs: seq<Name>, cfg: Config, ran: Tool)
    requires Rooted(m) && DirIn(m, k) && ChildNames(Elements(xs))
    ensures Rooted(CopyAll(m, k, xs, cfg, ran)) && DirIn(CopyAll(m, k, xs, cfg, ran), k)
    decreases |xs|
  {
    if xs != [] {
      var x, ys := xs[|xs| - 1], xs[..|xs| - 1];
      assert x in Elements(xs);
      assert ChildNames(Elements(ys)) by {
        forall y | y in ys ensures y in Elements(xs) { assert y in xs; }
      }
      CopyAllKeepsRooted(m, k, ys, cfg, ran);
      CopyOneKeepsRooted(CopyAll(m, k, ys, cfg, ran), k, x, cfg, ran);
    }
  }

  /** A round that returns leaves a rooted tree when it started from one. */
  lemma FolderStepKeepsRooted(n: Nodes, k: Path, names: set<Name>, xs: seq<Name>, cfg: Config, ran: Tool)
    requires Rooted(n) && ChildNames(names) && Enumerates(xs, names)
    requires FolderStep(n, k, names, xs, cfg, ran).Some?
    ensures Rooted(FolderStep(n, k, names, xs, cfg, ran).value)
  {
    PrepareKeepsRooted(n, k, names);
    var m := Prepare(n, k, names).value;
    if names == {} {
      ElementsEmpty(xs);
    } else {
      PrepareNonEmpty(n, k, names);
      CopyAllKeepsRooted(m, k, xs, cfg, ran);
    }
  }

  /** Every planned name can be a child of its folder. */
  predicate PlanChildNames(keys: seq<Path>, folders: map<Path, set<Name>>) {
    forall j :: 0 <= j < |keys| && keys[j] in folders ==> ChildNames(folders[keys[j]])
  }

  /** Every round of a run that returned started from the tree the earlier rounds left, which is
      rooted, and is `FolderStep` on it; so `FolderStepEmpty` and `FolderStepNonEmpty` describe
      each round. */
  lemma {:induction false} EachRound(n: Nodes, keys: seq<Path>, folders: map<Path, set<Name>>, orders: seq<seq<Name>>,
                                     cfg: Config, ran: Tool)
    requires forall j :: 0 <= j < |keys| ==> keys[j] in folders
    requires Rooted(n) && PlanChildNames(keys, folders) && EnumeratesPlan(orders, keys, folders)
    requires RunPrefix(n, keys, folders, orders, cfg, ran).Some?
    ensures Rooted(RunPrefix(n, keys, folders, orders, cfg, ran).value)
    ensures forall j :: 0 <= j < |orders| ==>
      && RunPrefix(n, keys, folders, orders[..j], cfg, ran).Some?
      && Rooted(RunPrefix(n, keys, folders, orders[..j], cfg, ran).value)
      && RunPrefix(n, keys, folders, orders[..j + 1], cfg, ran)
         == FolderStep(RunPrefix(n, keys, folders, orders[..j], cfg, ran).value, keys[j], folders[keys[j]], orders[j], cfg, ran)
    decreases |orders|
  {
    if orders != [] {
      var i := |orders| - 1;
      var pre := orders[..i];
      assert RunPrefix(n, keys, folders, pre, cfg, ran).Some?;
      EachRound(n, keys, folders, pre, cfg, ran);
      var m := RunPrefix(n, keys, folders, pre, cfg, ran).value;
      assert RunPrefix(n, keys, folders, orders, cfg, ran) == Rounds(n, keys, folders, orders, cfg, ran)
        == LastRound(n, keys, folders, orders, cfg, ran)
        == FolderStep(m, keys[i], folders[keys[i]], orders[i], cfg, ran);
      FolderStepKeepsRooted(m, keys[i], folders[keys[i]], orders[i], cfg, ran);
      forall j | 0 <= j < |orders|
        ensures RunPrefix(n, keys, folders, orders[..j], cfg, ran).Some?
        ensures Rooted(RunPrefix(n, keys, folders, orders[..j], cfg, ran).value)
        ensures RunPrefix(n, keys, folders, orders[..j + 1], cfg, ran)
          == FolderStep(RunPrefix(n, keys, folders, orders[..j], cfg, ran).value, keys[j], folders[keys[j]], orders[j], cfg, ran)
      {
        if j == i {
          assert orders[..j] == pre && orders[..j + 1] == orders;
        } else {
          assert pre[..j] == orders[..j] && pre[..j + 1] == orders[..j + 1] && pre[j] == orders[j];
        }
      }
    }
  }

  /** Each round `j` copied the names planned for the `j`th folder, each once, in the order
      `orders[j]`. */
  predicate EnumeratesPlan(orders: seq<seq<Name>>, keys: seq<Path>, folders: map<Path, set<Name>>)
    decreases |orders|
  {
    && |orders| <= |keys|
    && (orders == [] ||
        var i := |orders| - 1;
        && EnumeratesPlan(orders[..i], keys, folders)
        && keys[i] in folders && Enumerates(orders[i], folders[keys[i]]))
  }

  lemma {:induction false} EnumeratesPlanAt(orders: seq<seq<Name>>, keys: seq<Path>, folders: map<Path, set<Name>>, j: nat)
    requires EnumeratesPlan(orders, keys, folders) && j < |orders|
    ensures keys[j] in folders && Enumerates(orders[j], folders[keys[j]])
    decreases |orders|
  {
    var i := |orders| - 1;
    if j < i {
      EnumeratesPlanAt(orders[..i], keys, folders, j);
      assert orders[..i][j] == orders[j];
    }
  }

  /** One round of the loop at :259-319: prepare the folder, then copy its names. */
  method FolderRound(fs: FileSystem, k: Path, names: set<Name>, cfg: Config, ran: Tool) returns (ok: bool, ghost xs: seq<Name>)
    modifies fs
    ensures ok ==> Enumerates(xs, names) && FolderStep(old(fs.nodes), k, names, xs, cfg, ran) == Some(fs.nodes)
    ensures !ok ==> Prepare(old(fs.nodes), k, names).None? && fs.nodes == old(fs.nodes)
  {
    ok := PrepareFolder(fs, k, names);
    if !ok {
      return ok, [];
    }
    xs := CopyNames(fs, k, names, cfg, ran);
  }

  /** Round `|orders| + 1` of the loop, after the rounds `orders`. */
  method NextRound(fs: FileSystem, ghost n0: Nodes, plan: Planner.Plan, ghost orders: seq<seq<Name>>, i: nat,
                   cfg: Config, ran: Tool) returns (ok: bool, ghost xs: seq<Name>)
    requires i == |orders| < |plan.order| && forall j :: 0 <= j < |plan.order| ==> plan.order[j] in plan.folders
    requires RunPrefix(n0, plan.order, plan.folders, orders, cfg, ran) == Some(fs.nodes)
    modifies fs
    ensures ok ==> Enumerates(xs, plan.folders[plan.order[i]])
    ensures ok ==> RunPrefix(n0, plan.order, plan.folders, orders + [xs], cfg, ran) == Some(fs.nodes)
    ensures !ok ==> fs.nodes == old(fs.nodes) && Prepare(fs.nodes, plan.order[i], plan.folders[plan.order[i]]).None?
  {
    ghost var m0 := fs.nodes;
    ok, xs := FolderRound(fs, plan.order[i], plan.folders[plan.order[i]], cfg, ran);
    if ok {
      RunPrefixStep(n0, plan.order, plan.folders, orders, xs, m0, fs.nodes, cfg, ran);
    }
  }

  /** `addlocalsubmodules`: the planned folders in the dictionary's order. An `os.mkdir` that
      raises ends the run, with the earlier folders done. */
  method AddLocalSubmodules(fs: FileSystem, plan: Planner.Plan, cfg: Config, ran: Tool)
    returns (out: Outcome, ghost orders: seq<seq<Name>>)
    requires Planner.Ordered(plan)
    modifies fs
    ensures |orders| <= |plan.order|
    ensures EnumeratesPlan(orders, plan.order, plan.folders)
    ensures out.Done? ==> |orders| == |plan.order|
    ensures RunPrefix(old(fs.nodes), plan.order, plan.folders, orders, cfg, ran) == Some(fs.nodes)
    ensures out.Raised? ==> (|orders| < |plan.order| && out.path == plan.order[|orders|]
      && Prepare(fs.nodes, out.path, plan.folders[out.path]).None?)
    ensures Rooted(old(fs.nodes)) && PlanChildNames(plan.order, plan.folders) ==> Rooted(fs.nodes)
  {
    ghost var n0 := fs.nodes;
    assert forall j :: 0 <= j < |plan.order| ==> plan.order[j] in plan.folders;
    orders := [];
    var i := 0;
    while i < |plan.order|
      invariant 0 <= i <= |plan.order| && |orders| == i
      invariant EnumeratesPlan(orders, plan.order, plan.folders)
      invariant RunPrefix(n0, plan.order, plan.folders, orders, cfg, ran) == Some(fs.nodes)
    {
      var ok;
      ghost var xs;
      ok, xs := NextRound(fs, n0, plan, orders, i, cfg, ran);
      if !ok {
        out := Raised(plan.order[i]);
        if Rooted(n0) && PlanChildNames(plan.order, plan.folders) {
          EachRound(n0, plan.order, plan.folders, orders, cfg, ran);
        }
        return;
      }
      assert (orders + [xs])[..i] == orders;
      orders := orders + [xs];
      i := i + 1;
    }
    out := Done;
    if Rooted(n0) && PlanChildNames(plan.order, plan.folders) {
      EachRound(n0, plan.order, plan.folders, orders, cfg, ran);
    }
  }
}
