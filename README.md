# Submodule engine of `mysubmodules_func.py`, modelled in Dafny

`mysubmodules_func.py` keeps local copies of a project's submodules. Code refers to a
first-class submodule `x` as `submodules/x/` and to a second-class one as `submodules2/x/`. The
engine finds those markers in a module's files, resolves the transitive closure of modules,
plans which folder must hold which submodules, and brings the folders to that shape,
copying each module in (by `rsync` or `git clone`) and deleting what is not needed. The
streaming variant `dosubmodules` does the same one module at a time, with a pluggable
finder and adder.

The model has one module per part of the engine:

- `Names`: Python's string order and `sorted` over a set of names.
- `Paths`: `os.path.join`, `basename`, `dirname`, `str.split('/')`, `split('/')[-2]`, and
  the module-name normaliser (`basename` after one trailing `/` is dropped).
- `Scanner`: `getsubmodules`. The regular expression
  `(?<![a-z0-9_-])<id>/([chars]*?)/` and `finditer` are written out. The files are a map from
  path to text (a path not in the map is not a regular file). The tracked-file list
  (`git ls-files`) is a parameter.
- `Resolver`: `getsubmodulesall`, the FIFO worklist that resolves the modules reached from the
  roots. Scanning a module, by its name and its code path, is a parameter.
- `Planner`: `getsubmodulepathdicts`, the worklist of `[modulepath, submodules2root]` pairs
  that builds the ordered dictionary from folder to names.
- `Files`: the filesystem as a map from canonical path to directory or file, and a class
  `FileSystem` whose methods (`RmRecursive`, `Mkdir`, `ListDir`, `PruneChildren`,
  `Materialize`) change it in place.
- `Executor`: `addlocalsubmodules`, which carries out a plan on a `FileSystem`.
- `Local`: `getsubmodules_local` (file selection and both scans) and `addsubmodules_local`
  (its `rsync` arguments and its effect).
- `Orchestrator`: `dosubmodules`. It covers the preflight check, the front-pushed worklist,
  the reconciliation of each module's `submodules/` folder, the self-nesting guard, the
  per-root record of second-class names, the two adding loops, and the final prune of
  `submodules2/`.

Each imperative loop is a Dafny `method` with its loop invariants. Each method is proved
against a function or a relation on its inputs and old state. The properties the engine
relies on are lemmas about those functions.

## Model

| member | source | states |
|---|---|---|
| Names.SortNames | mysubmodules_func.py:147 | the result is strictly sorted and its elements are exactly the given set |
| Names.Insert | mysubmodules_func.py:147 | inserting into a strictly sorted list keeps it strictly sorted and adds exactly the new element |
| Names.SortedUnique | mysubmodules_func.py:147 | two strictly sorted lists with the same elements are equal, so `sorted(set)` is determined by the set |
| Names.SortedNoDuplicates | mysubmodules_func.py:147 | a strictly sorted list holds no element twice |
| Names.BelowIrreflexive | mysubmodules_func.py:147 | Python's `<` on strings is irreflexive |
| Names.BelowTransitive | mysubmodules_func.py:147 | Python's `<` on strings is transitive |
| Names.BelowTotal | mysubmodules_func.py:147 | two strings differ exactly when one is below the other, and never both |
| Paths.ModuleNameOfJoin | mysubmodules_func.py:173-176 | for a module path built as `join(folder, name)`, the normaliser returns `name`, with or without a trailing `/` on the folder |
| Paths.ModuleAtJoin | mysubmodules_func.py:224 | `split('/')[-2]` of a path `join(folder, name) + '/'` is `name` |
| Scanner.NameEnd | mysubmodules_func.py:123 | the lazy group ends at the first `/` reached through allowed characters |
| Scanner.MatchAt | mysubmodules_func.py:123 | a match at an index is a marker `<id>/<name>/` with the look-behind boundary before it; its name uses only allowed characters and the match ends after the closing `/` |
| Scanner.MatchAtComplete | mysubmodules_func.py:123 | conversely, every marker whose name uses only allowed characters is matched at its index, with exactly that name |
| Scanner.NameEndAfterName | mysubmodules_func.py:123 | a slash-free run of allowed characters followed by `/` ends the group at that `/` |
| Scanner.FindAll | mysubmodules_func.py:139-141 | `finditer` from an index: try each index, resume after a match; its meaning is `FindAllSound`, `FindAllEmpty` and `FirstMarkerFrom` |
| Scanner.FindAllSound | mysubmodules_func.py:139-141 | every name `finditer` yields comes from a marker at or after the start index and uses only allowed characters |
| Scanner.FindAllEmpty | mysubmodules_func.py:139-141 | a text yields no names exactly when the pattern matches at no index |
| Scanner.FirstMarkerFound | mysubmodules_func.py:139-141 | the first marker of a text is the first name `finditer` yields |
| Scanner.FirstMarkerFrom | mysubmodules_func.py:139-141 | from any index, the first match at or after it is the first name yielded |
| Scanner.FileNames | mysubmodules_func.py:139-145 | the admitted names of one file's matches; `CollectFile` is proved to compute it |
| Scanner.ScanNames | mysubmodules_func.py:132-145 | the names collected over the listed files, skipping paths that are not files; its meaning is `ScanNamesExact` and `ScanNamesSound` |
| Scanner.ScanNamesExact | mysubmodules_func.py:132-145 | a name is collected exactly when the list check admits it and some listed path is a regular file whose text yields it; other listed paths contribute nothing |
| Scanner.ScanNamesSound | mysubmodules_func.py:132-145 | every collected name is in the check list when one is given, and is slash-free and made of allowed characters; each comes from a marker in an existing listed file |
| Scanner.ModuleDir | mysubmodules_func.py:120-121 | the module path with exactly one `/` appended when it lacks one |
| Scanner.FilesToParse | mysubmodules_func.py:125-130 | a given file list is used as is; otherwise each tracked file is prefixed by the module folder |
| Scanner.CollectFile | mysubmodules_func.py:139-145 | the loop over one file's matches collects exactly that file's admitted names |
| Scanner.GetSubmodules | mysubmodules_func.py:105-149 | the result is strictly sorted and its elements are exactly the names collected from the files to parse |
| Resolver.RootNameList | mysubmodules_func.py:171-178 | the initial worklist holds the `i`th root's module name at position `i` |
| Resolver.CodePaths | mysubmodules_func.py:170-178 | the code-path keys are the given keys plus the root names; a non-root name keeps its given path |
| Resolver.CodePathsLastWins | mysubmodules_func.py:172-177 | of several roots with one name, the last one is that name's code path |
| Resolver.Admit | mysubmodules_func.py:192-194 | one name's test in the queuing loop; its meaning is `EnqueueAllFacts` |
| Resolver.EnqueueAll | mysubmodules_func.py:190-194 | the queuing loop over a module's found names; its meaning is `EnqueueAllFacts` |
| Resolver.EnqueueAllFacts | mysubmodules_func.py:190-194 | the queue only grows at its end. It gains distinct searchable names found in the module that are neither completed, queued, nor the module itself. Afterwards every searchable name found is completed, queued or the module |
| Resolver.Enqueue | mysubmodules_func.py:190-194 | the loop computes `EnqueueAll` |
| Resolver.Seed | mysubmodules_func.py:170-178 | the loop builds exactly the code paths and the initial worklist |
| Resolver.StepRecorded | mysubmodules_func.py:181-188 | after a round, the result dictionaries hold each completed module's two scans |
| Resolver.StepPending | mysubmodules_func.py:181-194 | each round decreases the measure: fewer names of the roots and search list are unadmitted, or as many with a shorter queue |
| Resolver.StepKeepsInv | mysubmodules_func.py:181-194 | a round keeps the loop invariant and decreases the measure |
| Resolver.StepFactsMissing | mysubmodules_func.py:184 | a queued module without a code path lies in every closed set holding the roots |
| Resolver.Initially | mysubmodules_func.py:171-180 | the initial state satisfies the loop invariant |
| Resolver.Finished | mysubmodules_func.py:181 | with the queue empty, the scanned modules are the least closed set holding the roots, starting with the roots in order; only a root can repeat |
| Resolver.Drain | mysubmodules_func.py:181-194 | the loop ends with the invariant, an empty queue and every scanned module's files readable. Otherwise it names a module that every closed set holding the roots contains and that has no code path, or has one but unreadable files; when the first queued module is one whose files cannot be read, that is the result |
| Resolver.GetSubmodulesAll | mysubmodules_func.py:152-200 | the intended resolver, where no `filestoparsedict` means the tracked files are scanned. On success both result dictionaries are keyed by exactly the scanned modules, each value is that module's scan, done on its name (which picks its files) and its code path, and every scanned module is in the given dictionary when there is one. The scanned set is the least set holding the roots and closed under searchable found names. Only a repeated root is scanned twice. Otherwise the result names a reachable module whose code path (`KeyError` at :184) or entry in a given dictionary (`KeyError` at :184) is missing. Without a dictionary it never fails for want of one |
| Resolver.GetSubmodulesAllAsWritten | mysubmodules_func.py:152-200 | the resolver as written: the same success and failure facts, with `filestoparsedict[modulename]` at :184 raising `TypeError` when the dictionary is `None`. So the default call (`filestoparsedict = None` at :152) with any root fails on the first root's name |
| Planner.Put | mysubmodules_func.py:233 | a dictionary assignment appends a new key and leaves an old key in place, keeping the key order duplicate-free |
| Planner.DropCircular | mysubmodules_func.py:228-232 | the filter keeps exactly the names `x` for which `submodules/x/` is not in the module path |
| Planner.DropCircularAsWritten | mysubmodules_func.py:229-232 | the remove-while-iterating loop as written; `AsWrittenBetween` and `AsWrittenSkipsName` are about it |
| Planner.AsWrittenBetween | mysubmodules_func.py:229-232 | the loop as written keeps only listed names, and keeps every name the intended filter keeps |
| Planner.AsWrittenSkipsName | mysubmodules_func.py:229-232 | for the list `["x", "y"]` at `a/submodules/x/submodules/y/`, the loop as written keeps the circular `y`; the intended filter keeps nothing |
| Planner.Share | mysubmodules_func.py:236 | the shared entry gains the module's second-class names; keys, order and other entries are unchanged |
| Planner.ShareAsWritten | mysubmodules_func.py:236 | the statement as written, which discards the union; `ShareAsWrittenLoses` is about it |
| Planner.ShareAsWrittenLoses | mysubmodules_func.py:236 | with the union discarded, a shared entry stays empty after a visit that names `b`; the intended union holds `b` |
| Planner.RootItems | mysubmodules_func.py:218 | the initial worklist pairs each root with its `submodules2/` folder, in order |
| Planner.FirstKids | mysubmodules_func.py:239-241 | every searchable kept first-class name is queued below `modulepath/submodules/`, with the same shared folder |
| Planner.SecondKids | mysubmodules_func.py:242-244 | every searchable second-class name is queued below the shared folder |
| Planner.Kids | mysubmodules_func.py:238-244 | everything one visit appends to the worklist; `ReachedStep` and `PlanFinishedReach` are about it |
| Planner.VisitedPaths | mysubmodules_func.py:219-222 | every visited item's path is in the visited set |
| Planner.Visit | mysubmodules_func.py:219-244 | one round of the loop for a valid item; `KeyedStep`, `WrittenStep`, `ReachedStep` and `VisitKeeps` are about it |
| Planner.Diagnose | mysubmodules_func.py:224-236 | it names the lookup that fails: no module name in the path, no first-class list, or no second-class list; none fails exactly for a valid item |
| Planner.SeedFolders | mysubmodules_func.py:213-214 | the dictionary starts with an empty, duplicate-free entry `R/submodules2/` for each root `R` and no other key |
| Planner.SeedItems | mysubmodules_func.py:218 | the loop builds the initial worklist |
| Planner.AppendFirstKids | mysubmodules_func.py:239-241 | the loop appends `FirstKids` |
| Planner.AppendSecondKids | mysubmodules_func.py:242-244 | the loop appends `SecondKids` |
| Planner.PlanInitially | mysubmodules_func.py:210-218 | the seeded dictionary and worklist satisfy the loop invariant |
| Planner.KeyedStep | mysubmodules_func.py:233-236 | a visit adds exactly its `submodules/` key to the dictionary and keeps the key order duplicate-free |
| Planner.WrittenStep | mysubmodules_func.py:233-236 | a visit keeps every first-class key holding the kept list of the module that last wrote it |
| Planner.ReachedStep | mysubmodules_func.py:219-244 | moving the front item to the visited log and queueing its children keeps the items reachable from the roots, and no others |
| Planner.VisitKeeps | mysubmodules_func.py:219-244 | one round of the loop keeps the whole invariant |
| Planner.QueuedReached | mysubmodules_func.py:220 | the item at the front lies in every closed set of items holding the roots |
| Planner.VisitOne | mysubmodules_func.py:220-244 | the loop body computes the next dictionary and worklist |
| Planner.PlanAll | mysubmodules_func.py:219-244 | within its fuel the loop ends with the invariant, or names a reachable item whose lookup fails, with the reason |
| Planner.PlanFinishedKeys | mysubmodules_func.py:213-233 | at the end there is an entry `R/submodules2/` for every root. The keys are those and the visited `submodules/` keys, and no `submodules/` entry holds a circular name |
| Planner.PlanFinishedReach | mysubmodules_func.py:219-244 | at the end the visited items are the least closed set of items holding the roots |
| Planner.GetSubmodulePathDicts | mysubmodules_func.py:204-246 | the keys are every root's `R/submodules2/` and every visited module's `P/submodules/`, in insertion order. A `submodules/` entry holds its module's names without those where `submodules/X/` is a substring of `P`. A shared entry holds the second-class names of the visits sharing it. The visits are exactly what the roots reach. A failure names the reachable item and the lookup that fails |
| Files.ParentOfChildren | mysubmodules_func.py:272 | in a tree, only a stored directory has children |
| Files.ChildUnderChild | mysubmodules_func.py:272-274 | two children of one directory are nested only when they are the same |
| Files.PrunedChildren | mysubmodules_func.py:272-274 | pruning leaves exactly the planned children, keeps the folder itself, and changes nothing outside the folder |
| Files.RemovedSubtree | mysubmodules_func.py:89-101 | recursive removal deletes the path and everything below it, and nothing else |
| Files.PrunedForAll | mysubmodules_func.py:272-274 | removing each listed child not to be kept, in any listing order, is the pruning of the folder |
| Files.SubTreeListing | mysubmodules_func.py:89-101 | after removals only, a listing has shrunk and no path has appeared |
| Files.RemovedKeepsRooted | mysubmodules_func.py:89-101 | recursive removal keeps every path below an existing directory |
| Files.PrunedKeepsRooted | mysubmodules_func.py:272-274 | pruning a folder keeps every path below an existing directory |
| Files.AddDirKeepsRooted | mysubmodules_func.py:279 | making a directory inside an existing directory keeps every path below an existing directory |
| Files.FileSystem.RmRecursive | mysubmodules_func.py:89-101 | the new tree is the old one without the path's subtree |
| Files.FileSystem.Mkdir | mysubmodules_func.py:279 | it succeeds exactly when nothing is at the path and its parent is a directory, and then adds exactly that directory |
| Files.FileSystem.ListDir | mysubmodules_func.py:272 | the listing holds each child of the directory exactly once |
| Files.FileSystem.PruneChildren | mysubmodules_func.py:272-274 | the new tree is the pruning of the old one |
| Files.FileSystem.Materialize | mysubmodules_func.py:290-302 | a copy that ran leaves a directory at its destination |
| Executor.PrepareEmpty | mysubmodules_func.py:262-265 | a folder with nothing planned loses its whole subtree when `lexists` sees it, and otherwise nothing changes; in particular a regular file `P` under the plan key `P/` is kept. It is absent afterwards unless it is the filesystem root, and nothing outside it changes |
| Executor.Prepare | mysubmodules_func.py:262-279 | bringing a folder to shape, `None` where `os.mkdir` raises; its meaning is `PrepareEmpty` and `PrepareNonEmpty` |
| Executor.PrepareNonEmpty | mysubmodules_func.py:266-279 | a folder with planned names ends up a directory whose children are the old children that are planned. This fails exactly when it is not a directory and cannot be made. Nothing outside it changes |
| Executor.RsyncArgsSync | mysubmodules_func.py:294-301 | the executor's `rsync` argument list; `RsyncBuildersDiffer` relates it to the local adder's |
| Executor.GitCloneArgs | mysubmodules_func.py:290 | the `git clone` argument list |
| Executor.CommandFor | mysubmodules_func.py:284-318 | the command for a planned name: local checkout first, remote repository next, none otherwise; `LocalWins` is about it |
| Executor.CopyOne | mysubmodules_func.py:282-319 | copying one planned name; its meaning is `CopyOneFacts` |
| Executor.CopyAll | mysubmodules_func.py:281-319 | copying a folder's names in turn; its meaning is `CopyAllShape`, `CopyAllRan`, `CopyAllKeeps` and `CopyAllSkips` |
| Executor.CopyOneFacts | mysubmodules_func.py:281-319 | a copy touches only its destination's subtree and leaves a directory there when its command ran. An rsync copy keeps an existing destination. A name with nowhere to copy from changes nothing |
| Executor.LocalWins | mysubmodules_func.py:284-309 | a name with a local checkout is copied from it, whatever the clone dictionary says |
| Executor.ChildrenAfterCopy | mysubmodules_func.py:281-319 | a copy adds at most its own name to the folder's children |
| Executor.CopyAllShape | mysubmodules_func.py:281-319 | copying a folder's names keeps it a directory holding planned children only, and changes nothing outside it |
| Executor.CopyAllRan | mysubmodules_func.py:281-302 | every name whose command ran is a child of the folder afterwards |
| Executor.CopyAllKeeps | mysubmodules_func.py:281-319 | an existing child survives unless it was cleared before a clone |
| Executor.CopyAllSkips | mysubmodules_func.py:309-319 | a name found in neither dictionary is not created |
| Executor.FolderStepEmpty | mysubmodules_func.py:259-265 | a round for a folder with nothing planned removes its subtree when `lexists` sees it and otherwise changes nothing, so a regular file under a key ending in `/` is kept; a folder other than the root is absent afterwards |
| Executor.FolderStep | mysubmodules_func.py:259-319 | one round of the loop; its meaning is `FolderStepEmpty` and `FolderStepNonEmpty` |
| Executor.FolderStepNonEmpty | mysubmodules_func.py:259-319 | a round for a folder with planned names fails exactly when it is not a directory and cannot be made. Otherwise it leaves a directory of planned children only, keeping planned children that were present unless cleared for a clone. Every copied name is present, and a name with no source that was absent stays absent |
| Executor.PrepareKeepsRooted | mysubmodules_func.py:262-279 | bringing a folder to shape keeps the tree well-formed |
| Executor.CopyOneKeepsRooted | mysubmodules_func.py:282-319 | copying a child name keeps the tree well-formed and the folder a directory |
| Executor.CopyAllKeepsRooted | mysubmodules_func.py:281-319 | so does copying all of a folder's names |
| Executor.FolderStepKeepsRooted | mysubmodules_func.py:259-319 | a round that returns keeps the tree well-formed when its names can be children |
| Executor.EachRound | mysubmodules_func.py:259-319 | in a run that returned, every round starts from the well-formed tree the earlier rounds left and is `FolderStep` on it, so the per-round lemmas hold of every round |
| Executor.RunPrefixStep | mysubmodules_func.py:259 | the rounds so far followed by one more round are the rounds of the longer prefix |
| Executor.EnumeratesPlanAt | mysubmodules_func.py:259-281 | round `j` copied each name planned for the `j`th folder exactly once |
| Executor.PrepareFolder | mysubmodules_func.py:262-279 | the method changes the tree as `Prepare` says and reports whether `os.mkdir` raised |
| Executor.CopyName | mysubmodules_func.py:282-319 | the method changes the tree as `CopyOne` says |
| Executor.CopyNames | mysubmodules_func.py:281-319 | the method copies each planned name once, in some order, as `CopyAll` says |
| Executor.FolderRound | mysubmodules_func.py:259-319 | one round is `FolderStep`; a round that raises changes nothing |
| Executor.AddLocalSubmodules | mysubmodules_func.py:249-319 | the folders are handled in the dictionary's order, each round as `FolderStep` says, each name copied once. It stops only at a folder that is not a directory and cannot be made. A well-formed tree stays well-formed when every planned name can be a child |
| Local.FilesFor | mysubmodules_func.py:493-502 | the files list is the module's entry in the dictionary when there is one, and otherwise absent |
| Local.AsWrittenFilesFor | mysubmodules_func.py:493-504 | the files list as the source computes it, unbound without a dictionary; `AsWrittenFilesForUnbound` is about it |
| Local.AsWrittenFilesForUnbound | mysubmodules_func.py:491-504 | without a dictionary the source reads an unbound variable, while the intended lookup scans the tracked files; with one the two agree |
| Local.GetSubmodulesLocal | mysubmodules_func.py:491-507 | both results are strictly sorted and hold exactly the names the two scans collect over the same files |
| Local.RsyncBuildersDiffer | mysubmodules_func.py:522-530 | the executor's `rsync` list is the local adder's plus `--delete-excluded` when `.git` is skipped, and the same otherwise |
| Local.RsyncArgsLocal | mysubmodules_func.py:522-530 | the local adder's `rsync` argument list; `RsyncBuildersDiffer` relates it to the executor's |
| Local.AddLocal | mysubmodules_func.py:510-531 | one call of the local adder; its meaning is `AddLocalOutcome` |
| Local.AddLocalOutcome | mysubmodules_func.py:510-531 | the local adder raises exactly for a module with no checkout. A call that returns and whose command ran leaves a directory at the destination. A failing call changes nothing, except that in clone mode the destination (unless it is the root) is gone |
| Local.AddSubmodulesLocal | mysubmodules_func.py:510-531 | the method changes the tree as `AddLocal` says |
| Local.LocalAdder | mysubmodules_func.py:538 | the local adder bound to its options, in the form `dosubmodules` calls it |
| Orchestrator.AsWrittenRelativeRoot | mysubmodules_func.py:430-434 | for a relative root `r`, the components as written start with `r` minus its first character; the corrected ones start with `r` |
| Orchestrator.AsWrittenTopRoot | mysubmodules_func.py:430-434 | for a root `/r`, the components as written again lose the first character of `r` |
| Orchestrator.AsWrittenComponentsMissRoot | mysubmodules_func.py:430-440 | at relative root `proj` the guard as written lets a module `proj` through; the corrected guard refuses it |
| Orchestrator.ComponentsAsWritten | mysubmodules_func.py:430-434 | the path components as written; `AsWrittenRelativeRoot` and `AsWrittenTopRoot` are about it |
| Orchestrator.Components | mysubmodules_func.py:429-434 | the path components as the comment at :429 intends; its meaning is `ComponentsStartAtRoot` |
| Orchestrator.ComponentsStartAtRoot | mysubmodules_func.py:429-434 | inside a plain root, the components are the root's name followed by the path below it |
| Orchestrator.Unguarded | mysubmodules_func.py:436-440 | the guard lets through exactly the first-class names that are not a path component |
| Orchestrator.GuardRefusesAncestors | mysubmodules_func.py:429-440 | for a module path made of a plain root followed by nothing or by `/…`, no first-class module named like the root or like any folder below it is added; `GuardAtEveryTask` shows every task has that shape |
| Orchestrator.NewNamesSpec | mysubmodules_func.py:386-391 | the new second-class names are exactly those not collected before, each once |
| Orchestrator.NewNames | mysubmodules_func.py:386-391 | the new second-class names, as intended; its meaning is `NewNamesSpec` |
| Orchestrator.NewSecondNames | mysubmodules_func.py:386-391 | the loop yields the new names and adds every found name to the root's record |
| Orchestrator.AsWrittenNewNamesRaises | mysubmodules_func.py:387-390 | the loop as written raises exactly when there is a new name, so on any root's first module that names a second-class module |
| Orchestrator.AsWrittenNewNames | mysubmodules_func.py:386-390 | the collection loop as written, `None` where it raises; `AsWrittenNewNamesRaises` is about it |
| Orchestrator.ReconcileOutcome | mysubmodules_func.py:405-420 | with no first-class names `modulepath/submodules` is gone (unless it is the root). Otherwise it is a directory of named children only; an existing directory keeps each named child. Only a folder that cannot be made raises. Nothing outside the folder changes |
| Orchestrator.Reconcile | mysubmodules_func.py:405-420 | reconciling `modulepath/submodules`; its meaning is `ReconcileOutcome` |
| Orchestrator.ReconcileFolder | mysubmodules_func.py:405-420 | the method changes the tree as `Reconcile` says |
| Orchestrator.EnsureSecondOutcome | mysubmodules_func.py:422-425 | with new names the root's `submodules2` is a directory afterwards, and at most that folder was added. This raises exactly for new names with something in the way or no parent directory, and then nothing changes |
| Orchestrator.EnsureSecond | mysubmodules_func.py:422-425 | making the root's `submodules2` folder; its meaning is `EnsureSecondOutcome` |
| Orchestrator.EnsureSecondFolder | mysubmodules_func.py:422-425 | the method changes the tree as `EnsureSecond` says |
| Orchestrator.AddEachTries | mysubmodules_func.py:436-467 | every name is tried on the tree the previous call left; a failure does not stop the names after it |
| Orchestrator.AddEach | mysubmodules_func.py:436-452 | an adding loop, from either phase; its meaning is `AddEachTries` and `AddEachFront` |
| Orchestrator.AddEachFront | mysubmodules_func.py:450-452 | a module is pushed exactly when its add returned normally and it is searchable (or there is no list) |
| Orchestrator.AddNames | mysubmodules_func.py:436-467 | the loop computes `AddEach`, pushing each module onto the front |
| Orchestrator.FirstFront | mysubmodules_func.py:436-452 | every module the first loop pushes is a searchable first-class name the guard let through, below the module |
| Orchestrator.SecondFront | mysubmodules_func.py:456-467 | every module the second loop pushes is a searchable new second-class name, below the root |
| Orchestrator.AddPhasePushesFront | mysubmodules_func.py:436-467 | after a visit the pushed modules stand before the rest of the worklist, which keeps its order. The pushed modules are children of the visited module or new second-class modules of its root. The root's record gains the found names |
| Orchestrator.AddPhase | mysubmodules_func.py:436-467 | both adding loops of a visit; its meaning is `AddPhasePushesFront`, `FirstFront` and `SecondFront` |
| Orchestrator.VisitedIsAddPhase | mysubmodules_func.py:405-467 | a visit that returns is its two adding loops on the tree the folder preparation left |
| Orchestrator.VisitTask | mysubmodules_func.py:364-467 | one visit: find (a finder that raises stops the run there, :383), reconcile, make `submodules2`, then the adding loops; `VisitedIsAddPhase`, `VisitKeepsRoots` and `VisitKeepsShape` are about it |
| Orchestrator.TurnTaken | mysubmodules_func.py:364-365 | a running loop takes its next turn from its current state |
| Orchestrator.HaltedTurn | mysubmodules_func.py:364 | a stopped loop takes no further turn |
| Orchestrator.HaltedStays | mysubmodules_func.py:364 | once stopped, the loop stays as it stopped |
| Orchestrator.Loop | mysubmodules_func.py:364-468 | the main loop for at most `fuel` visits; `LoopHalted`, `LoopDrained` and `LoopKeepsRoots` are about it |
| Orchestrator.AddPhaseKeepsRoots | mysubmodules_func.py:452-467 | the adding loops keep every task's root among the roots and the record keyed by the roots |
| Orchestrator.VisitKeepsRoots | mysubmodules_func.py:364-467 | a visit keeps every task's root among the roots and the record keyed by the roots |
| Orchestrator.TurnsKeepRoots | mysubmodules_func.py:359-467 | every turn keeps every task's root among the roots and creates no other record entry |
| Orchestrator.LoopKeepsRoots | mysubmodules_func.py:359-467 | so does the whole loop |
| Orchestrator.PlainRootCanon | mysubmodules_func.py:359 | a plain root's canonical form is non-empty, does not end in `/`, and the root itself lies at or below it |
| Orchestrator.JoinUnder | mysubmodules_func.py:452-467 | `os.path.join` of a relative name keeps a path at or below a folder below that folder |
| Orchestrator.ChildShaped | mysubmodules_func.py:436-467 | each module a visit pushes lies below its root, when the folder names and the finder's names are relative |
| Orchestrator.AddPhaseKeepsShape | mysubmodules_func.py:436-467 | the adding loops keep every task's path at or below its root |
| Orchestrator.FrontKeepsShape | mysubmodules_func.py:452-467 | pushing children of the first task in front of the rest keeps every task at or below its root |
| Orchestrator.VisitKeepsShape | mysubmodules_func.py:364-467 | a visit that returns keeps every task's path at or below its root |
| Orchestrator.TurnsKeepShape | mysubmodules_func.py:364-467 | by induction over turns, every task the loop holds lies at or below its root |
| Orchestrator.InitialShaped | mysubmodules_func.py:355 | every initial task `[m, m]` of a plain root lies at its root |
| Orchestrator.GuardAtEveryTask | mysubmodules_func.py:429-440 | at every task the loop reaches from plain roots, the guard refuses the root's name and every folder between the root and the module, given relative folder and module names |
| Orchestrator.FirstMissing | mysubmodules_func.py:348-350 | the result is absent exactly when every root is a directory; otherwise it is a root that is not one |
| Orchestrator.RootPassesCheck | mysubmodules_func.py:348-350 | the filesystem root `/` is a directory, so a root `/` passes the preflight check |
| Orchestrator.CheckRoots | mysubmodules_func.py:348-350 | the preflight check finds the first root that is not a directory |
| Orchestrator.Initial | mysubmodules_func.py:355-361 | the worklist pairs each root with itself, in order, and each root's record starts empty |
| Orchestrator.PruneOneOutcome | mysubmodules_func.py:475-487 | a root with no collected names has no `submodules2` folder afterwards, unless that folder's path is the filesystem root. One with names has a directory holding only collected children. Only a missing directory raises, and nothing outside the folder changes |
| Orchestrator.PruneOne | mysubmodules_func.py:476-487 | pruning one root's `submodules2` folder; its meaning is `PruneOneOutcome` |
| Orchestrator.PruneAllOutcome | mysubmodules_func.py:475-487 | the final prune raises only at a root's `submodules2` folder and changes nothing outside those folders |
| Orchestrator.PruneAllShape | mysubmodules_func.py:475-487 | after a prune that raises nowhere, a root with no collected names has no `submodules2` folder (the path being other than the filesystem root), and the folder of a root with names holds none but those; only paths were removed |
| Orchestrator.RaisingFinderStops | mysubmodules_func.py:364-383 | a finder that raises on the first root ends the run there, with `Raised` at that root and the filesystem untouched; with its default `filestoparsedict = None`, `dosubmodules_local` (:535-540) is such a run |
| Orchestrator.RunPrunes | mysubmodules_func.py:340-489 | a completed run passed the preflight check and the main loop, and leaves each root's `submodules2` folder shaped by the names the loop collected for it |
| Orchestrator.PruneAll | mysubmodules_func.py:475-487 | the final prune over the roots; its meaning is `PruneAllOutcome` and `PruneAllShape` |
| Orchestrator.PruneRoot | mysubmodules_func.py:476-487 | the method changes the tree as `PruneOne` says |
| Orchestrator.FinalPrune | mysubmodules_func.py:475-487 | the loop prunes the roots in order and stops at the first that raises |
| Orchestrator.VisitOne | mysubmodules_func.py:364-467 | one visit on the filesystem does what `VisitTask` says, raising where it raises |
| Orchestrator.LoopHalted | mysubmodules_func.py:364 | a loop that stopped within its fuel ends where it stopped |
| Orchestrator.LoopDrained | mysubmodules_func.py:364 | a loop whose worklist runs dry within its fuel ends normally there |
| Orchestrator.TakeTurn | mysubmodules_func.py:364-467 | the method takes the loop's next turn |
| Orchestrator.MainLoop | mysubmodules_func.py:364-468 | the loop ends in the tree, record and outcome of `Loop` |
| Orchestrator.Run | mysubmodules_func.py:340-489 | the whole of `dosubmodules`; `RunPrunes` states its final shape |
| Orchestrator.DoSubmodules | mysubmodules_func.py:340-489 | the run is the preflight check, then the main loop, then the final prune over the roots in first-occurrence order (`Run`). A finder that raises stops the run at that module. A run that completes leaves no `submodules2` folder for a root that collected nothing (and whose folder path is not the filesystem root), and only collected children in the folder of one that did |

## Left out

- Permission bits and symbolic links (`chmodrecursive`, `os.chmod` at :93, :98, :269, :277, :307, the `readonly` option). The filesystem model holds only existence and kind.
- External processes (`git ls-files`, `rsync`, `git clone`). The tracked-file list is a parameter. A command is a `Tool` oracle that says whether it leaves a directory at its destination, since the source ignores the exit status. File contents are not modelled, so a copy only makes its destination a directory.
- Printing, `datetime` and `printdetails`: logging only.
- `getprojectdir` / `importattr`: calls are direct.
- latin-1 decoding: file texts are character sequences.
- `addlocalsubmodules_full` (:323-336) and `dosubmodules_local` (:535-540) only wire the parts together, so they have no members of their own. `Local.LocalAdder` is the adder in the form `dosubmodules` takes it.
- Resolver.GetSubmodulesAll: each module's two scans are a parameter, a function of the module's name (which selects the files to parse) and its code path. Which modules `filestoparsedict` holds, or that it is `None`, is an input, so the `KeyError` at :184 is modelled (and, in `GetSubmodulesAllAsWritten`, the `TypeError` on `None`); the scan itself cannot raise. `submodulename1` or `submodulename2` set to `None` (then `None + list` raises at :190) is not modelled: both scans always run. The search list `None` admits no non-root module, as the code does.
- Planner.GetSubmodulePathDicts: `submodule in None` raises at :240 and :243. There, `None` admits nothing, as in the resolver whose dictionaries the planner reads.
- Planner.PlanAll: the second-class expansion has no cycle guard, so the loop may not end. The model runs for at most `fuel` rounds and reports `OutOfFuel`.
- Orchestrator.MainLoop: the finder may keep naming new modules. The loop runs for at most `fuel` visits and reports `OutOfFuel`.
- Orchestrator.DoSubmodules: states that a root's empty `submodules2` folder is absent only when its path is not the root `/` (for the reason given on the `rmrecursive('/')` line).
- Orchestrator.DoSubmodules: the finder and adder are parameters, as in the source. The finder answers from the module path alone, or reports that it raised, which stops the run (:383). The adder reports whether it raised, which the source catches. The module name at :367-370 only keys dictionaries rebuilt every visit, so it has no effect and is not computed.
- Orchestrator.AddEachFront: states which modules are pushed, not their order among themselves. The order, last pushed first, is fixed by `AddEach`'s definition.
- Orchestrator.AccOf: a root missing from the record reads as empty, to keep the functions total. `LoopKeepsRoots` shows every task's root has an entry.
- Executor.AddLocalSubmodules: the shape of each folder is stated per round (`FolderStepNonEmpty`, `FolderStepEmpty`, applied to every round by `EachRound`). A later round may change a folder nested in an earlier one, and the model does not state the final shape of all folders at once. That the tree stays well-formed is promised when every planned name is non-empty and slash-free; the scanner can report the empty name of `submodules//`, whose copy targets the folder itself.
- Files: paths are compared as strings after dropping one trailing `/`. Doubled separators and `.` or `..` components are not normalised. A path written with a trailing `/` exists only as a directory, as `lexists` sees it. The root `/` always exists as a directory; a different spelling of it, such as `//`, is not recognised.
- Files: `rmrecursive('/')` raises in `chmodrecursive` (:93, :74-86: `PermissionError` for an unprivileged process, after changing the modes it can) or at `os.chmod('')` (:94-95), before deleting anything. The model does not raise there; it removes every absolute path, and the root stays. A folder is the root only for a plan key `/`, or when it is built from empty or absolute folder and module names.
- Executor.PrepareEmpty: states that the deleted folder is absent for every path but the root `/`, for the reason above.
- Executor.FolderStepEmpty: states that the deleted folder is absent for every path but the root `/`, for the reason above.
- Local.AddLocalOutcome: states that the deleted folder is absent for every path but the root `/`, for the reason above.
- Orchestrator.ReconcileOutcome: states that the deleted folder is absent for every path but the root `/`, for the reason above.
- Orchestrator.PruneOneOutcome: states that the deleted folder is absent for every path but the root `/`, for the reason above.
- Orchestrator.PruneAllShape: states that the deleted folder is absent for every path but the root `/`, for the reason above.
- Orchestrator.RunPrunes: states that the deleted folder is absent for every path but the root `/`, for the reason above.
- Orchestrator.GuardAtEveryTask: requires relative folder names and a finder that names only relative modules; an absolute name makes `os.path.join` leave the root, and the guard's slice then does not apply.
- Paths.ModuleName: requires a non-empty path, so the `IndexError` of `modulepath[-1]` on an empty path (:173, :494) is not modelled.
- Scanner.GetSubmodules: requires a non-empty module path, so the `IndexError` at :120 on an empty path is not modelled; `Scanner.ModuleDir` and `Scanner.FilesToParse` carry the same requirement.
- Resolver.GetSubmodulesAll (and GetSubmodulesAllAsWritten): requires every root to be non-empty, so the `IndexError` at :173 on an empty root is not modelled.
- Local.GetSubmodulesLocal: requires a non-empty module path, so the `IndexError` at :494 on an empty path is not modelled; `Local.FilesFor` and `Local.AsWrittenFilesFor` carry the same requirement.
- `Paths.ModuleName`, `Paths.Join` and `Paths.Basename` carry only the facts later proofs use. Their meaning for the paths the engine builds is `Paths.ModuleNameOfJoin`.

## Findings

| source | as written | input that shows it | evidently intended | confidence | as-written member | corrected member |
|---|---|---|---|---|---|---|
| mysubmodules_func.py:229-232 | `remove` inside `for` over the same list skips the name after each removed one | list `["x", "y"]` at module path `a/submodules/x/submodules/y/` keeps `y` | drop every circular name (comment at :228) | not executed | Planner.AsWrittenSkipsName | Planner.DropCircular |
| mysubmodules_func.py:236 | `set.union` result is discarded | a root whose module names `b` in `submodules2/` keeps an empty entry, so the folder is deleted | add the names to the shared entry (comment at :235) | not executed | Planner.ShareAsWrittenLoses | Planner.Share |
| mysubmodules_func.py:389-390 | misspelt `submodulels2dictoverall`, `.append` on a set and `.add` on a list | any root whose first module names a second-class module raises `NameError` | record the name for the root and queue it in `submodules2donow` | not executed | Orchestrator.AsWrittenNewNamesRaises | Orchestrator.NewSecondNames |
| mysubmodules_func.py:431-434 | the slice starts after `dirname(root) + '/'`, one character too far when the dirname is empty or `/` | relative root `proj`: its components read `roj`, so a module `proj` is added inside itself | components from the root's own name on (comment at :429) | not executed | Orchestrator.AsWrittenComponentsMissRoot | Orchestrator.GuardRefusesAncestors |
| mysubmodules_func.py:184-186 | `filestoparsedict[modulename]` is read even though `filestoparsedict` defaults to `None` (:152, and :323 for `addlocalsubmodules_full`) | the default call with root `a/`: `None['a']` raises `TypeError` before any scan | no dictionary means scan the tracked files, as `getsubmodules` does for `filestoparse = None` | not executed | Resolver.GetSubmodulesAllAsWritten | Resolver.GetSubmodulesAll |
| mysubmodules_func.py:504 | `filestoparse` is bound only when `filestoparsedict` is not `None` | the default `filestoparsedict = None` raises `UnboundLocalError` on every module | scan the tracked files | not executed | Local.AsWrittenFilesForUnbound | Local.GetSubmodulesLocal |
