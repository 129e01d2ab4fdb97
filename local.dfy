/** The local finder `getsubmodules_local` and adder `addsubmodules_local`
    (mysubmodules_func.py:491-531), which `dosubmodules` is used with when every module has
    a checkout on this machine. */
module Local {
  import opened Names
  import opened Paths
  import opened Files
  import Scanner
  import Executor

  /** The files list `getsubmodules_local` scans (:493-502): the module's entry in the
      dictionary, else `None` (scan the tracked files). With no dictionary at all the source
      reads an unbound local variable; that case is `AsWrittenFilesFor`. */
  function FilesFor(modulepath: Path, filesdict: Option<map<Name, seq<Path>>>): (r: Option<seq<Path>>)
    requires |modulepath| > 0
    ensures r.Some? <==> filesdict.Some? && ModuleName(modulepath) in filesdict.value
    ensures r.Some? ==> r.value == filesdict.value[ModuleName(modulepath)]
  {
    if filesdict.Some? && ModuleName(modulepath) in filesdict.value then Some(filesdict.value[ModuleName(modulepath)])
    else None
  }

  datatype Lookup = Listed(list: Option<seq<Path>>) | UnboundLocal

  /** `filestoparse` as the source computes it: it is assigned only inside
      `if filestoparsedict is not None`, so without a dictionary the read at :504 raises. */
  function AsWrittenFilesFor(modulepath: Path, filesdict: Option<map<Name, seq<Path>>>): Lookup
    requires |modulepath| > 0
  {
    if filesdict.None? then UnboundLocal
    else Listed(FilesFor(modulepath, filesdict))
  }

  /** With the default `filestoparsedict = None` the as-written finder fails on every module,
      where the evident intent is to scan the tracked files. */
  lemma AsWrittenFilesForUnbound(modulepath: Path)
    requires |modulepath| > 0
    ensures AsWrittenFilesFor(modulepath, None) == UnboundLocal
    ensures FilesFor(modulepath, None) == None
    ensures forall d :: AsWrittenFilesFor(modulepath, Some(d)) == Listed(FilesFor(modulepath, Some(d)))
  {
  }

  /** `getsubmodules_local`: both scans of the module, over the same files, with the default
      name characters and no list check (:504-505). `files` holds the texts of the regular
      files and `tracked` the output of `git ls-files`. */
  method GetSubmodulesLocal(modulepath: Path, id1: Name, id2: Name, filesdict: Option<map<Name, seq<Path>>>,
                            files: map<Path, string>, tracked: seq<Path>)
    returns (first: seq<Name>, second: seq<Name>)
    requires |modulepath| > 0
    ensures var list := Scanner.FilesToParse(modulepath, FilesFor(modulepath, filesdict), tracked);
      && StrictlySorted(first) && StrictlySorted(second)
      && Elements(first) == Scanner.ScanNames(files, list, id1, Scanner.IsModuleChar, None)
      && Elements(second) == Scanner.ScanNames(files, list, id2, Scanner.IsModuleChar, None)
  {
    var list := FilesFor(modulepath, filesdict);
    first := Scanner.GetSubmodules(modulepath, id1, Scanner.IsModuleChar, list, None, files, tracked);
    second := Scanner.GetSubmodules(modulepath, id2, Scanner.IsModuleChar, list, None, files, tracked);
  }

  /** The `rsync` argument list of `addsubmodules_local` (:522-530). */
  function RsyncArgsLocal(src: Path, dest: Path, id1: Option<Name>, id2: Option<Name>, gitskip: bool): seq<string> {
    ["rsync", "-a", "--delete", src, dest]
      + (if id1.Some? then ["--exclude", id1.value] else [])
      + (if id2.Some? then ["--exclude", id2.value] else [])
      + (if gitskip then ["--exclude", ".git/*"] else [])
  }

  /** The two `rsync` builders agree except that the executor's also deletes the excluded
      `.git` contents at the destination. */
  lemma RsyncBuildersDiffer(src: Path, dest: Path, id1: Option<Name>, id2: Option<Name>, gitskip: bool)
    ensures Executor.RsyncArgsSync(src, dest, id1, id2, gitskip)
         == RsyncArgsLocal(src, dest, id1, id2, gitskip) + (if gitskip then ["--delete-excluded"] else [])
    ensures !gitskip ==> Executor.RsyncArgsSync(src, dest, id1, id2, gitskip) == RsyncArgsLocal(src, dest, id1, id2, gitskip)
  {
    var base := ["rsync", "-a", "--delete", src, dest]
      + (if id1.Some? then ["--exclude", id1.value] else [])
      + (if id2.Some? then ["--exclude", id2.value] else []);
    if gitskip {
      assert base + ["--exclude", ".git/*", "--delete-excluded"] == (base + ["--exclude", ".git/*"]) + ["--delete-excluded"];
    } else {
      assert base + [] == base;
    }
  }

  /** The command `addsubmodules_local` runs for a module it has a checkout of. */
  function LocalCommand(src: Path, dest: Path, id1: Option<Name>, id2: Option<Name>, viaClone: bool, gitskip: bool): seq<string> {
    if viaClone then Executor.GitCloneArgs(src, dest) else RsyncArgsLocal(src, dest, id1, id2, gitskip)
  }

  /** `addsubmodules_local(submodulepathdict, overall, id, x)`: a module missing from the
      dictionary raises `KeyError`, in clone mode only after the destination was deleted. */
  function AddLocal(n: Nodes, pathdict: map<Name, Path>, overall: Path, id: Name, x: Name,
                    id1: Option<Name>, id2: Option<Name>, viaClone: bool, gitskip: bool, ran: Executor.Tool): Step
  {
    var dest := Join(Join(overall, id), x);
    if viaClone then
      var m := if Present(n, dest) then Removed(n, Canon(dest)) else n;
      if x !in pathdict then Step(m, false)
      else Step(if ran(Executor.GitCloneArgs(pathdict[x], dest)) then m[Canon(dest) := Dir] else m, true)
    else if x !in pathdict then Step(n, false)
    else Step(if ran(RsyncArgsLocal(pathdict[x], dest, id1, id2, gitskip)) then n[Canon(dest) := Dir] else n, true)
  }

  /** The local adder raises exactly for a module it has no checkout of; a call that returns
      and whose command ran leaves a directory at the destination; a failing call changes
      nothing except, in clone mode, that the destination is gone. */
  lemma AddLocalOutcome(n: Nodes, pathdict: map<Name, Path>, overall: Path, id: Name, x: Name,
                        id1: Option<Name>, id2: Option<Name>, viaClone: bool, gitskip: bool, ran: Executor.Tool)
    ensures var s, dest := AddLocal(n, pathdict, overall, id, x, id1, id2, viaClone, gitskip, ran), Join(Join(overall, id), x);
      && (s.ok <==> x in pathdict)
      && (!s.ok && !viaClone ==> s.nodes == n)
      && (!s.ok && viaClone && !RootPath(dest) ==> !Present(s.nodes, dest))
      && (!s.ok && viaClone ==> forall p :: !Under(p, Canon(dest)) ==> (p in s.nodes <==> p in n))
      && (s.ok && Canon(dest) != "" && ran(LocalCommand(pathdict[x], dest, id1, id2, viaClone, gitskip)) ==> DirIn(s.nodes, dest))
  {
  }

  /** The same, as the method that changes the filesystem (:510-531). */
  method AddSubmodulesLocal(fs: FileSystem, pathdict: map<Name, Path>, overall: Path, id: Name, x: Name,
                            id1: Option<Name>, id2: Option<Name>, viaClone: bool, gitskip: bool, ran: Executor.Tool)
    returns (ok: bool)
    modifies fs
    ensures Step(fs.nodes, ok) == AddLocal(old(fs.nodes), pathdict, overall, id, x, id1, id2, viaClone, gitskip, ran)
  {
    var dest := Join(Join(overall, id), x);
    if viaClone {
      if fs.Exists(dest) {
        fs.RmRecursive(dest);
      }
      if x !in pathdict {
        return false;
      }
      if ran(Executor.GitCloneArgs(pathdict[x], dest)) {
        fs.Materialize(dest);
      }
    } else {
      if x !in pathdict {
        return false;
      }
      if ran(RsyncArgsLocal(pathdict[x], dest, id1, id2, gitskip)) {
        fs.Materialize(dest);
      }
    }
    ok := true;
  }


  /** The local adder in the form `dosubmodules` calls it. */
  function LocalAdder(pathdict: map<Name, Path>, id1: Option<Name>, id2: Option<Name>, viaClone: bool, gitskip: bool,
                      ran: Executor.Tool): (Nodes, Path, Name, Name) -> Step
  {
    (n: Nodes, overall: Path, id: Name, x: Name) => AddLocal(n, pathdict, overall, id, x, id1, id2, viaClone, gitskip, ran)
  }
}
