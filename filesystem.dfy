/** The part of the filesystem the engine touches: which paths exist and whether each is a
    directory or a file. Permission bits and symbolic links are not modelled. A path is stored
    in canonical form (`Paths.Canon`, one trailing `/` dropped). The current directory and the
    filesystem root `/` always exist, as directories, and are never stored; the empty path does
    not exist. */
module Files {
  import opened Names
  import opened Paths

  datatype Kind = Dir | File

  type Nodes = map<Path, Kind>

  /** The filesystem after an operation that may raise, and whether it returned normally. */
  datatype Step = Step(nodes: Nodes, ok: bool)

  /** `os.path.lexists(p)` (and `os.path.exists`, symbolic links aside). A path written with a
      trailing `/` resolves only to a directory: at a regular file it does not exist (ENOTDIR). */
  predicate Present(n: Nodes, p: Path) {
    RootPath(p) || (Canon(p) != "" && Canon(p) in n && (EndsWithSlash(p) ==> n[Canon(p)] == Dir))
  }

  /** `os.path.isdir(p)`. */
  predicate DirIn(n: Nodes, p: Path) {
    RootPath(p) || (Present(n, p) && Canon(p) in n && n[Canon(p)] == Dir)
  }

  /** The filesystem root. Like any path, it is not normalised: `//` is not recognised as it. */
  predicate RootPath(p: Path) {
    p == "/"
  }

  /** The names `os.listdir` reports for the directory stored under key `c`. */
  function Children(n: Nodes, c: Path): set<Name> {
    set k | k in n && IsChildKey(c, k) :: k[|c| + 1..]
  }

  /** What `rmrecursive` leaves: the key `c` and everything below it are gone. */
  function Removed(n: Nodes, c: Path): Nodes {
    map k | k in n && !Under(k, c) :: n[k]
  }

  /** `k` lies in the subtree of a child of `c` that is not to be kept. */
  ghost predicate PrunedAway(n: Nodes, c: Path, keep: set<Name>, k: Path) {
    exists x :: x in Children(n, c) && x !in keep && Under(k, c + "/" + x)
  }

  /** What the pruning loops leave (mysubmodules_func.py:272-274, :418-420, :485-487): every child
      of `c` outside `keep` is removed recursively. */
  ghost function Pruned(n: Nodes, c: Path, keep: set<Name>): Nodes {
    map k | k in n && !PrunedAway(n, c, keep, k) :: n[k]
  }

  /** The same pruning, done for the children listed in `xs` only. */
  ghost function PrunedFor(n: Nodes, c: Path, keep: set<Name>, xs: seq<Name>): Nodes {
    map k | k in n && !(exists j :: 0 <= j < |xs| && xs[j] !in keep && Under(k, c + "/" + xs[j])) :: n[k]
  }

  /** The parent of `c` is a directory; a path without a separator lives in the current
      directory and one directly below `/` in the root, both of which exist. */
  predicate ParentIsDir(n: Nodes, c: Path) {
    match LastSlash(c)
    case None => true
    case Some(i) => c[..i] == "" || (c[..i] in n && n[c[..i]] == Dir)
  }

  /** `os.mkdir(p)` succeeds: nothing is at `p` and its parent is a directory. */
  predicate CanMkdir(n: Nodes, p: Path) {
    Canon(p) != "" && Canon(p) !in n && ParentIsDir(n, Canon(p))
  }

  /** Every stored path hangs below a stored directory (or the current directory, or the root). */
  ghost predicate Rooted(n: Nodes) {
    forall k :: k in n ==> ParentIsDir(n, k)
  }

  /** In a rooted tree only a stored directory has children. */
  lemma ParentOfChildren(n: Nodes, c: Path)
    requires Rooted(n) && c != ""
    ensures forall x :: x in Children(n, c) ==> c in n && n[c] == Dir
  {
    forall x | x in Children(n, c) ensures c in n && n[c] == Dir {
      ParentOfChild(n, c, x);
    }
  }

  lemma ParentOfChild(n: Nodes, c: Path, x: Name)
    requires Rooted(n) && c != "" && x in Children(n, c)
    ensures c in n && n[c] == Dir
  {
    ChildKey(n, c, x);
    var k := c + "/" + x;
    LastSlashAfterSeparator(c + "/", x);
    assert k == (c + "/") + x;
    assert k[..|c|] == c;
    assert ParentIsDir(n, k);
  }

  /** Two children of one directory are nested only when they are the same child. */
  lemma ChildUnderChild(c: Path, x: Name, y: Name)
    requires SlashFree(x) && SlashFree(y) && x != "" && y != ""
    ensures Under(c + "/" + x, c + "/" + y) ==> x == y
  {
    var a, b := c + "/" + x, c + "/" + y;
    assert !(|a| > |b| && a[..|b|] == b && a[|b|] == '/') by {
      if |a| > |b| && a[..|b|] == b {
        assert a[|b|] == x[|y|];
        assert x[|y|] in x;
      }
    }
    assert a[|c| + 1..] == x && b[|c| + 1..] == y;
  }

  /** A child name is non-empty, slash-free and stored right below its directory. */
  lemma ChildKey(n: Nodes, c: Path, x: Name)
    requires x in Children(n, c)
    ensures x != "" && SlashFree(x) && c + "/" + x in n
  {
    var k :| k in n && IsChildKey(c, k) && k[|c| + 1..] == x;
    assert k == k[..|c|] + [k[|c|]] + k[|c| + 1..];
  }

  lemma ChildOfKey(n: Nodes, c: Path, x: Name)
    requires x != "" && SlashFree(x) && c + "/" + x in n
    ensures x in Children(n, c)
  {
    var k := c + "/" + x;
    assert k[..|c|] == c && k[|c|] == '/' && k[|c| + 1..] == x;
    assert IsChildKey(c, k);
  }

  /** Pruning keeps exactly the planned children, leaves `c` itself as it was and touches
      nothing outside `c`. */
  lemma PrunedChildren(n: Nodes, c: Path, keep: set<Name>)
    ensures Children(Pruned(n, c, keep), c) == Children(n, c) * keep
    ensures c in n ==> c in Pruned(n, c, keep) && Pruned(n, c, keep)[c] == n[c]
    ensures forall k :: k in n && !Under(k, c) ==> k in Pruned(n, c, keep) && Pruned(n, c, keep)[k] == n[k]
    ensures forall k :: k in Pruned(n, c, keep) ==> k in n && Pruned(n, c, keep)[k] == n[k]
  {
    var m := Pruned(n, c, keep);
    forall x | x in Children(n, c) * keep ensures x in Children(m, c) {
      ChildKey(n, c, x);
      forall y | y in Children(n, c) && Under(c + "/" + x, c + "/" + y) ensures y == x {
        ChildKey(n, c, y);
        ChildUnderChild(c, x, y);
      }
      ChildOfKey(m, c, x);
    }
    forall x | x in Children(m, c) ensures x in Children(n, c) * keep {
      ChildKey(m, c, x);
      ChildOfKey(n, c, x);
      if x !in keep {
        assert Under(c + "/" + x, c + "/" + x);
        assert PrunedAway(n, c, keep, c + "/" + x);
      }
    }
    forall k, y | k in n && Under(k, c + "/" + y) ensures Under(k, c) {
      assert k[..|c|] == c;
    }
  }

  /** After `rmrecursive`, `c` and every key below it are gone and nothing else changed. */
  lemma RemovedSubtree(n: Nodes, c: Path)
    ensures forall k :: k in Removed(n, c) <==> k in n && !Under(k, c)
    ensures c !in Removed(n, c) && Children(Removed(n, c), c) == {}
  {
    assert forall k :: IsChildKey(c, k) ==> Under(k, c);
  }

  /** Pruning one more listed child is one more recursive removal. */
  lemma PrunedForStep(n: Nodes, c: Path, keep: set<Name>, xs: seq<Name>, y: Name)
    requires y !in keep
    ensures PrunedFor(n, c, keep, xs + [y]) == Removed(PrunedFor(n, c, keep, xs), c + "/" + y)
  {
    var ys := xs + [y];
    forall k | k in n
      ensures (exists j :: 0 <= j < |ys| && ys[j] !in keep && Under(k, c + "/" + ys[j]))
          <==> (exists j :: 0 <= j < |xs| && xs[j] !in keep && Under(k, c + "/" + xs[j])) || Under(k, c + "/" + y)
    {
      if Under(k, c + "/" + y) {
        assert ys[|xs|] == y;
      }
      forall j | 0 <= j < |xs| ensures ys[j] == xs[j] { }
    }
  }

  lemma PrunedForKept(n: Nodes, c: Path, keep: set<Name>, xs: seq<Name>, y: Name)
    requires y in keep
    ensures PrunedFor(n, c, keep, xs + [y]) == PrunedFor(n, c, keep, xs)
  {
    var ys := xs + [y];
    forall k | k in n
      ensures (exists j :: 0 <= j < |ys| && ys[j] !in keep && Under(k, c + "/" + ys[j]))
          <==> (exists j :: 0 <= j < |xs| && xs[j] !in keep && Under(k, c + "/" + xs[j]))
    {
      forall j | 0 <= j < |xs| ensures ys[j] == xs[j] { }
    }
  }

  /** Pruning every listed child is the pruning of the directory. */
  lemma PrunedForAll(n: Nodes, c: Path, keep: set<Name>, xs: seq<Name>)
    requires Elements(xs) == Children(n, c)
    ensures PrunedFor(n, c, keep, xs) == Pruned(n, c, keep)
  {
    forall k | k in n
      ensures (exists j :: 0 <= j < |xs| && xs[j] !in keep && Under(k, c + "/" + xs[j])) <==> PrunedAway(n, c, keep, k)
    {
      if PrunedAway(n, c, keep, k) {
        var x :| x in Children(n, c) && x !in keep && Under(k, c + "/" + x);
        assert x in Elements(xs);
        var j :| 0 <= j < |xs| && xs[j] == x;
      }
    }
  }

  /** A listed child not yet handled is still present while the earlier ones are pruned. */
  lemma PrunedForKeepsLater(n: Nodes, c: Path, keep: set<Name>, xs: seq<Name>, i: nat)
    requires i < |xs| && xs[i] in Children(n, c)
    requires forall j :: 0 <= j < |xs| ==> xs[j] in Children(n, c)
    requires forall j :: 0 <= j < i ==> xs[j] != xs[i]
    ensures c + "/" + xs[i] in PrunedFor(n, c, keep, xs[..i])
  {
    ChildKey(n, c, xs[i]);
    var ys := xs[..i];
    if exists j :: 0 <= j < |ys| && ys[j] !in keep && Under(c + "/" + xs[i], c + "/" + ys[j]) {
      var j :| 0 <= j < |ys| && ys[j] !in keep && Under(c + "/" + xs[i], c + "/" + ys[j]);
      ChildKey(n, c, xs[j]);
      ChildUnderChild(c, xs[i], xs[j]);
    }
  }

  /** Every path of `a` is in `b` with the same kind: `a` is `b` after removals only. */
  predicate SubTree(a: Nodes, b: Nodes) {
    forall k :: k in a ==> k in b && a[k] == b[k]
  }

  /** Removing paths only shrinks a listing and makes nothing appear. */
  lemma SubTreeListing(a: Nodes, b: Nodes, p: Path)
    requires SubTree(a, b)
    ensures Children(a, Canon(p)) <= Children(b, Canon(p))
    ensures Present(a, p) ==> Present(b, p)
  {
  }

  /** A path whose parent lies in the subtree of `d` lies there too. */
  lemma ParentUnder(k: Path, i: nat, d: Path)
    requires i < |k| && k[i] == '/' && Under(k[..i], d)
    ensures Under(k, d)
  {
    assert k[..i][..|d|] == k[..|d|];
  }

  /** `rmrecursive` keeps the tree rooted: a removed parent takes its children with it. */
  lemma RemovedKeepsRooted(n: Nodes, c: Path)
    requires Rooted(n)
    ensures Rooted(Removed(n, c))
  {
    var r := Removed(n, c);
    forall k | k in r ensures ParentIsDir(r, k) {
      assert ParentIsDir(n, k);
      if LastSlash(k).Some? {
        var i := LastSlash(k).value;
        if k[..i] != "" && Under(k[..i], c) {
          ParentUnder(k, i, c);
        }
      }
    }
  }

  /** Pruning keeps the tree rooted. */
  lemma PrunedKeepsRooted(n: Nodes, c: Path, keep: set<Name>)
    requires Rooted(n)
    ensures Rooted(Pruned(n, c, keep))
  {
    var r := Pruned(n, c, keep);
    forall k | k in r ensures ParentIsDir(r, k) {
      assert ParentIsDir(n, k);
      if LastSlash(k).Some? {
        var i := LastSlash(k).value;
        if k[..i] != "" && PrunedAway(n, c, keep, k[..i]) {
          var x :| x in Children(n, c) && x !in keep && Under(k[..i], c + "/" + x);
          ParentUnder(k, i, c + "/" + x);
        }
      }
    }
  }

  /** Making `c` a directory keeps the tree rooted when its parent is a directory. */
  lemma AddDirKeepsRooted(n: Nodes, c: Path)
    requires Rooted(n) && ParentIsDir(n, c)
    ensures Rooted(n[c := Dir])
  {
    var r := n[c := Dir];
    forall k | k in r ensures ParentIsDir(r, k) {
      if LastSlash(k).Some? {
        var i := LastSlash(k).value;
        if k == c {
          assert |k[..i]| < |c|;
        } else {
          assert ParentIsDir(n, k);
        }
      }
    }
  }

  /** The parent of a child's key is the directory it is listed in. */
  lemma ChildParent(c: Path, x: Name)
    requires x != "" && SlashFree(x)
    ensures LastSlash(c + "/" + x) == Some(|c|) && (c + "/" + x)[..|c|] == c
  {
    var a := c + "/";
    LastSlashAfterSeparator(a, x);
    assert (a + x)[..|c|] == a[..|c|] == c;
  }

  /** The filesystem the engine works on, changed in place by its operations. */
  class FileSystem {
    var nodes: Nodes

    constructor (init: Nodes)
      ensures nodes == init
    {
      nodes := init;
    }

    predicate Exists(p: Path)
      reads this
    {
      Present(nodes, p)
    }

    predicate IsDir(p: Path)
      reads this
    {
      DirIn(nodes, p)
    }

    /** `rmrecursive` (mysubmodules_func.py:91-101); the source requires the path to exist. */
    method RmRecursive(p: Path)
      requires Exists(p)
      modifies this
      ensures nodes == Removed(old(nodes), Canon(p))
    {
      nodes := Removed(nodes, Canon(p));
    }

    /** `os.mkdir`; `ok` is false where Python raises. */
    method Mkdir(p: Path) returns (ok: bool)
      modifies this
      ensures ok == CanMkdir(old(nodes), p)
      ensures nodes == if ok then old(nodes)[Canon(p) := Dir] else old(nodes)
    {
      ok := CanMkdir(nodes, p);
      if ok {
        nodes := nodes[Canon(p) := Dir];
      }
    }

    /** What a successful external copy (`rsync`, `git clone`) is modelled to leave: a directory at `p`. */
    method Materialize(p: Path)
      modifies this
      ensures nodes == old(nodes)[Canon(p) := Dir]
    {
      nodes := nodes[Canon(p) := Dir];
    }

    /** `os.listdir(p)`, in some order. */
    method ListDir(p: Path) returns (names: seq<Name>)
      requires IsDir(p)
      ensures Elements(names) == Children(nodes, Canon(p))
      ensures forall i, j :: 0 <= i < j < |names| ==> names[i] != names[j]
    {
      var left := Children(nodes, Canon(p));
      names := [];
      while left != {}
        invariant Elements(names) + left == Children(nodes, Canon(p))
        invariant forall x :: x in left ==> x !in names
        invariant forall i, j :: 0 <= i < j < |names| ==> names[i] != names[j]
        decreases left
      {
        var x :| x in left;
        names := names + [x];
        left := left - {x};
      }
    }

    /** The loop `for folder in os.listdir(p): if folder not in keep: rmrecursive(join(p, folder))`. */
    method PruneChildren(p: Path, keep: set<Name>)
      requires IsDir(p)
      modifies this
      ensures nodes == Pruned(old(nodes), Canon(p), keep)
    {
      var c := Canon(p);
      var kids := ListDir(p);
      ghost var n0 := nodes;
      forall j | 0 <= j < |kids| ensures kids[j] in Children(n0, c) {
        assert kids[j] in Elements(kids);
      }
      var i := 0;
      while i < |kids|
        invariant 0 <= i <= |kids|
        invariant nodes == PrunedFor(n0, c, keep, kids[..i])
      {
        var x := kids[i];
        assert kids[..i + 1] == kids[..i] + [x];
        if x !in keep {
          ChildKey(n0, c, x);
          CanonJoin(p, x);
          PrunedForKeepsLater(n0, c, keep, kids, i);
          RmRecursive(Join(p, x));
          PrunedForStep(n0, c, keep, kids[..i], x);
        } else {
          PrunedForKept(n0, c, keep, kids[..i], x);
        }
        i := i + 1;
      }
      assert kids[..i] == kids;
      PrunedForAll(n0, c, keep, kids);
    }
  }
}
