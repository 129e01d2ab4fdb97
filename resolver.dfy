/** Transitive resolver, `getsubmodulesall` (mysubmodules_func.py:152-200): a FIFO worklist
    of module names, each scanned once for its first-class (`submodules/`) and second-class
    (`submodules2/`) names; a name found is queued only when it is in the search list. */
module Resolver {
  import opened Names
  import opened Paths

  /** The two scans of one module (:184, :186), passed in: first-class names, second-class names.
      They depend on the module's name as well as its code path, since the files scanned are
      `filestoparsedict[modulename]`. */
  type Scan = (Name, Path) -> (seq<Name>, seq<Name>)

  datatype Resolution =
    | Resolved(first: map<Name, seq<Name>>, second: map<Name, seq<Name>>)
      /** A queued name has no code path: Python's KeyError at :184. */
    | NoCodePath(name: Name)
      /** A queued name has a code path but no entry in `filestoparsedict`: the KeyError at
          :184, or the TypeError of indexing `None` when there is no dictionary. */
    | NoFileList(name: Name)

  /** `filestoparsedict[m]` can be read, as written (:184, :186): `listed` holds the
      dictionary's keys, `None` when the dictionary itself is `None`, which raises. */
  predicate HasFiles(listed: Option<set<Name>>, m: Name) {
    listed.Some? && m in listed.value
  }

  /** The evident intent: no dictionary (the default at :152) means each module's tracked
      files are scanned, as `getsubmodules` does for `filestoparse = None`; a dictionary that
      lacks the module still raises `KeyError`. */
  predicate HasFilesOrTracked(listed: Option<set<Name>>, m: Name) {
    listed.None? || m in listed.value
  }

  predicate NonEmptyPaths(roots: seq<Path>) {
    forall i :: 0 <= i < |roots| ==> |roots[i]| > 0
  }

  /** The names of the roots, in order: the initial `modulestodolist` (:171-178). */
  function RootNameList(roots: seq<Path>): (r: seq<Name>)
    requires NonEmptyPaths(roots)
    ensures |r| == |roots| && forall i :: 0 <= i < |roots| ==> r[i] == ModuleName(roots[i])
  {
    seq(|roots|, i requires 0 <= i < |roots| => ModuleName(roots[i]))
  }

  lemma RootNameListSnoc(roots: seq<Path>)
    requires NonEmptyPaths(roots) && roots != []
    ensures NonEmptyPaths(roots[..|roots| - 1])
    ensures RootNameList(roots) == RootNameList(roots[..|roots| - 1]) + [ModuleName(roots[|roots| - 1])]
  {
    var init := roots[..|roots| - 1];
    assert forall i :: 0 <= i < |init| ==> init[i] == roots[i];
  }

  function RootNames(roots: seq<Path>): set<Name>
    requires NonEmptyPaths(roots)
  {
    Elements(RootNameList(roots))
  }

  /** No root after the `i`th has the same module name. */
  predicate LastOfItsName(roots: seq<Path>, i: int)
    requires NonEmptyPaths(roots) && 0 <= i < |roots|
  {
    forall j :: i < j < |roots| ==> ModuleName(roots[j]) != ModuleName(roots[i])
  }

  lemma RootNamesSnoc(roots: seq<Path>)
    requires NonEmptyPaths(roots) && roots != []
    ensures RootNames(roots) == RootNames(roots[..|roots| - 1]) + {ModuleName(roots[|roots| - 1])}
  {
    RootNameListSnoc(roots);
    ElementsConcat(RootNameList(roots[..|roots| - 1]), [ModuleName(roots[|roots| - 1])]);
  }

  /** `codemodulepathdict` (:170-178): the given paths, with each root's name leading to the root. */
  function CodePaths(pathdict: map<Name, Path>, roots: seq<Path>): (r: map<Name, Path>)
    requires NonEmptyPaths(roots)
    ensures r.Keys == pathdict.Keys + RootNames(roots)
    ensures forall n :: n in pathdict && n !in RootNames(roots) ==> r[n] == pathdict[n]
    decreases |roots|
  {
    if roots == [] then pathdict
    else
      RootNamesSnoc(roots);
      CodePaths(pathdict, roots[..|roots| - 1])[ModuleName(roots[|roots| - 1]) := roots[|roots| - 1]]
  }

  lemma LastOfItsNameInit(roots: seq<Path>, i: int)
    requires NonEmptyPaths(roots) && 0 <= i < |roots| - 1 && LastOfItsName(roots, i)
    ensures NonEmptyPaths(roots[..|roots| - 1]) && LastOfItsName(roots[..|roots| - 1], i)
    ensures ModuleName(roots[|roots| - 1]) != ModuleName(roots[i])
  {
    var init := roots[..|roots| - 1];
    forall j | i < j < |init| ensures ModuleName(init[j]) != ModuleName(init[i]) {
      assert init[j] == roots[j];
    }
  }

  /** The code paths grow by one root at a time. */
  lemma CodePathsSnoc(pathdict: map<Name, Path>, roots: seq<Path>)
    requires NonEmptyPaths(roots) && roots != []
    ensures NonEmptyPaths(roots[..|roots| - 1])
    ensures CodePaths(pathdict, roots) == CodePaths(pathdict, roots[..|roots| - 1])[ModuleName(roots[|roots| - 1]) := roots[|roots| - 1]]
  {
  }

  /** Of several roots with the same module name, the last one is the code path. */
  lemma {:induction false} CodePathsLastWins(pathdict: map<Name, Path>, roots: seq<Path>, i: int)
    requires NonEmptyPaths(roots) && 0 <= i < |roots| && LastOfItsName(roots, i)
    ensures var code := CodePaths(pathdict, roots); ModuleName(roots[i]) in code && code[ModuleName(roots[i])] == roots[i]
    decreases |roots|
  {
    var init := roots[..|roots| - 1];
    CodePathsSnoc(pathdict, roots);
    if i < |init| {
      LastOfItsNameInit(roots, i);
      CodePathsLastWins(pathdict, init, i);
      assert init[i] == roots[i];
    }
  }

  /** `modulescansearchlist` (:193): no list lets no non-root module in. */
  predicate InSearch(search: Option<seq<Name>>, n: Name) {
    search.Some? && n in search.value
  }

  /** All names a module's two scans report (:190). */
  function Next(code: map<Name, Path>, scan: Scan, m: Name): seq<Name>
    requires m in code
  {
    scan(m, code[m]).0 + scan(m, code[m]).1
  }

  /** A set of modules that holds every searchable name reported by each member that has a code path. */
  ghost predicate Closed(t: set<Name>, code: map<Name, Path>, scan: Scan, search: Option<seq<Name>>) {
    forall m, n :: m in t && m in code && n in Next(code, scan, m) && InSearch(search, n) ==> n in t
  }

  /** The set lies inside every closed set that holds the roots. */
  ghost predicate LeastFrom(s: set<Name>, start: set<Name>, code: map<Name, Path>, scan: Scan, search: Option<seq<Name>>) {
    forall t :: start <= t && Closed(t, code, scan, search) ==> s <= t
  }

  /** Names that occur twice in the log occur twice among its first `k` entries only. */
  ghost predicate RepeatsOnlyBefore(log: seq<Name>, k: nat) {
    forall i, j :: 0 <= i < j < |log| && log[i] == log[j] ==> j < k
  }

  lemma {:induction false} SubsetSmaller(a: set<Name>, b: set<Name>)
    requires a <= b
    ensures |a| <= |b|
    decreases |a|
  {
    if a != {} {
      var x :| x in a;
      SubsetSmaller(a - {x}, b - {x});
    }
  }

  lemma StrictSubsetSmaller(a: set<Name>, b: set<Name>)
    requires a < b
    ensures |a| < |b|
  {
    var x :| x in b && x !in a;
    SubsetSmaller(a, b - {x});
  }

  /** One step of the loop at :190-194: `n` is queued when it is neither completed, nor
      queued, nor the module at hand, and is in the search list. */
  function Admit(todo: seq<Name>, completed: set<Name>, m: Name, search: Option<seq<Name>>, n: Name): seq<Name> {
    if n !in completed && n !in todo && n != m && InSearch(search, n) then todo + [n] else todo
  }

  /** The whole loop at :190-194 over the names found in module `m`. */
  function EnqueueAll(todo: seq<Name>, completed: set<Name>, m: Name, search: Option<seq<Name>>, kids: seq<Name>): seq<Name>
    decreases |kids|
  {
    if kids == [] then todo else EnqueueAll(Admit(todo, completed, m, search, kids[0]), completed, m, search, kids[1..])
  }

  /** The queue only grows at its end, by distinct searchable names found in `m` that were
      neither completed nor queued, and afterwards every searchable name found is completed,
      queued, or `m` itself. */
  lemma {:induction false} EnqueueAllFacts(todo: seq<Name>, completed: set<Name>, m: Name, search: Option<seq<Name>>, kids: seq<Name>)
    ensures var r := EnqueueAll(todo, completed, m, search, kids);
      && |r| >= |todo| && r[..|todo|] == todo
      && (forall k :: |todo| <= k < |r| ==>
            InSearch(search, r[k]) && r[k] !in completed && r[k] != m && r[k] in kids)
      && (forall i, j :: 0 <= i < j < |r| && |todo| <= j ==> r[i] != r[j])
      && (forall n :: n in kids && InSearch(search, n) ==> n in completed || n == m || n in r)
    decreases |kids|
  {
    if kids != [] {
      var t := Admit(todo, completed, m, search, kids[0]);
      EnqueueAllFacts(t, completed, m, search, kids[1..]);
      var r := EnqueueAll(t, completed, m, search, kids[1..]);
      assert r[..|todo|] == r[..|t|][..|todo|];
      forall k | |todo| <= k < |r| ensures InSearch(search, r[k]) && r[k] !in completed && r[k] != m && r[k] in kids {
        if k < |t| { assert r[k] == t[k]; }
      }
      forall i, j | 0 <= i < j < |r| && |todo| <= j ensures r[i] != r[j] {
        if j < |t| {
          assert r[i] == t[i] && r[j] == t[j];
        }
      }
      forall n | n in kids && InSearch(search, n) ensures n in completed || n == m || n in r {
        if n == kids[0] {
          if n in t { assert n in r[..|t|]; }
        } else {
          assert n in kids[1..];
        }
      }
    }
  }

  /** Whatever the names found in `m` add to the queue lies in every closed set holding the roots. */
  lemma LeastStep(start: set<Name>, completed: set<Name>, todo: seq<Name>, grown: seq<Name>,
                  code: map<Name, Path>, scan: Scan, search: Option<seq<Name>>, m: Name)
    requires m in code && m in completed
    requires forall t :: start <= t && Closed(t, code, scan, search) ==> completed + Elements(todo) <= t
    requires |grown| >= |todo| && grown[..|todo|] == todo
    requires forall q :: |todo| <= q < |grown| ==> InSearch(search, grown[q]) && grown[q] in Next(code, scan, m)
    ensures forall t :: start <= t && Closed(t, code, scan, search) ==> completed + Elements(grown) <= t
  {
    forall t | start <= t && Closed(t, code, scan, search) ensures completed + Elements(grown) <= t {
      forall x | x in Elements(grown) ensures x in t {
        var q :| 0 <= q < |grown| && grown[q] == x;
        if q < |todo| {
          assert todo[q] == x;
        } else {
          assert m in t;
        }
      }
    }
  }

  /** Once `m`'s names are queued, every completed module's searchable names are completed or queued. */
  lemma ClosedStep(completed: set<Name>, todo: seq<Name>, grown: seq<Name>,
                   code: map<Name, Path>, scan: Scan, search: Option<seq<Name>>, m: Name)
    requires m in code
    requires forall x, n :: x in completed && x in code && x != m && n in Next(code, scan, x) && InSearch(search, n) ==>
      n in completed + Elements(todo)
    requires forall n :: n in Next(code, scan, m) && InSearch(search, n) ==> n in completed || n == m || n in grown
    requires Elements(todo) <= Elements(grown) && m in completed
    ensures forall x, n :: x in completed && x in code && n in Next(code, scan, x) && InSearch(search, n) ==>
      n in completed + Elements(grown)
  {
  }

  /** Appending names that are neither completed nor queued, without repeats, keeps the scan
      log free of repeats after the roots. */
  lemma RepeatsStillBefore(scanned: seq<Name>, todo: seq<Name>, grown: seq<Name>, completed: set<Name>, k: nat)
    requires Elements(scanned) == completed
    requires RepeatsOnlyBefore(scanned + todo, k) && |scanned + todo| >= k
    requires |grown| >= |todo| && grown[..|todo|] == todo
    requires forall q :: |todo| <= q < |grown| ==> grown[q] !in completed
    requires forall i, j :: 0 <= i < j < |grown| && |todo| <= j ==> grown[i] != grown[j]
    ensures RepeatsOnlyBefore(scanned + grown, k)
    ensures |scanned + grown| >= k && (scanned + grown)[..k] == (scanned + todo)[..k]
  {
    var log := scanned + todo;
    var l := scanned + grown;
    forall i, j | 0 <= i < j < |l| && k <= j ensures l[i] != l[j] {
      if j < |log| {
        assert l[i] == log[i] && l[j] == log[j];
      } else if i < |scanned| {
        assert l[i] in Elements(scanned);
        assert l[j] == grown[j - |scanned|];
      } else {
        assert l[i] == grown[i - |scanned|] && l[j] == grown[j - |scanned|];
      }
    }
    assert l[..|log|] == log;
  }

  lemma ElementsConcat(a: seq<Name>, b: seq<Name>)
    ensures Elements(a + b) == Elements(a) + Elements(b)
  {
  }

  /** The loop at :190-194, over the names `kids` found in module `m`. */
  method Enqueue(todo: seq<Name>, completed: set<Name>, m: Name, search: Option<seq<Name>>, kids: seq<Name>)
    returns (grown: seq<Name>)
    ensures grown == EnqueueAll(todo, completed, m, search, kids)
  {
    grown := todo;
    assert kids[0..] == kids;
    for j := 0 to |kids|
      invariant EnqueueAll(grown, completed, m, search, kids[j..]) == EnqueueAll(todo, completed, m, search, kids)
    {
      assert kids[j..][1..] == kids[j + 1..];
      var n := kids[j];
      if n !in completed && n !in grown && n != m {
        if search.Some? && n in search.value {
          grown := grown + [n];
        }
      }
    }
    assert kids[|kids|..] == [];
  }

  /** Adding one more root to the code paths and to the initial worklist. */
  lemma SeedStep(pathdict: map<Name, Path>, roots: seq<Path>, i: nat)
    requires NonEmptyPaths(roots) && i < |roots|
    ensures NonEmptyPaths(roots[..i]) && NonEmptyPaths(roots[..i + 1])
    ensures CodePaths(pathdict, roots[..i + 1]) == CodePaths(pathdict, roots[..i])[ModuleName(roots[i]) := roots[i]]
    ensures RootNameList(roots[..i + 1]) == RootNameList(roots[..i]) + [ModuleName(roots[i])]
  {
    assert roots[..i + 1][..i] == roots[..i];
    RootNameListSnoc(roots[..i + 1]);
  }

  /** The loop at :172-178: the code paths and the initial worklist. */
  method Seed(roots: seq<Path>, pathdict: map<Name, Path>) returns (code: map<Name, Path>, todo: seq<Name>)
    requires NonEmptyPaths(roots)
    ensures code == CodePaths(pathdict, roots) && todo == RootNameList(roots)
  {
    code := pathdict;
    todo := [];
    assert roots[..0] == [];
    for i := 0 to |roots|
      invariant NonEmptyPaths(roots[..i])
      invariant code == CodePaths(pathdict, roots[..i])
      invariant todo == RootNameList(roots[..i])
    {
      SeedStep(pathdict, roots, i);
      code := code[ModuleName(roots[i]) := roots[i]];
      todo := todo + [ModuleName(roots[i])];
    }
    assert roots[..|roots|] == roots;
  }

  /** The names a run may ever queue: the roots and the search list. */
  function Universe(roots: seq<Path>, search: Option<seq<Name>>): set<Name>
    requires NonEmptyPaths(roots)
  {
    RootNames(roots) + (if search.Some? then Elements(search.value) else {})
  }

  /** The names of the universe that are neither completed nor queued. */
  function Pending(roots: seq<Path>, search: Option<seq<Name>>, completed: set<Name>, todo: seq<Name>): nat
    requires NonEmptyPaths(roots)
  {
    |Universe(roots, search) - (completed + Elements(todo))|
  }

  /** The state of the `while` at :181: the two result dictionaries, `completedmodules`, the
      modules dequeued so far in order (a ghost log), and `modulestodolist`. */
  datatype Progress = Progress(first: map<Name, seq<Name>>, second: map<Name, seq<Name>>,
                               completed: set<Name>, scanned: seq<Name>, todo: seq<Name>)

  /** Completed or queued. */
  function Admitted(st: Progress): set<Name> {
    st.completed + Elements(st.todo)
  }

  ghost predicate Bounded(roots: seq<Path>, search: Option<seq<Name>>, st: Progress)
    requires NonEmptyPaths(roots)
  {
    Elements(st.todo) <= Universe(roots, search) && st.completed <= Universe(roots, search)
  }

  /** The dictionaries hold, for each completed module, the scans of its code path. */
  ghost predicate Recorded(code: map<Name, Path>, scan: Scan, st: Progress) {
    && st.first.Keys == st.second.Keys == st.completed == Elements(st.scanned)
    && forall n :: n in st.completed ==> n in code && st.first[n] == scan(n, code[n]).0 && st.second[n] == scan(n, code[n]).1
  }

  /** The roots are admitted, and everything admitted lies in each closed set holding the roots. */
  ghost predicate Within(roots: seq<Path>, code: map<Name, Path>, scan: Scan, search: Option<seq<Name>>, st: Progress)
    requires NonEmptyPaths(roots)
  {
    && RootNames(roots) <= Admitted(st)
    && forall t :: RootNames(roots) <= t && Closed(t, code, scan, search) ==> Admitted(st) <= t
  }

  /** Every searchable name a completed module reports is admitted. */
  ghost predicate Propagated(code: map<Name, Path>, scan: Scan, search: Option<seq<Name>>, st: Progress) {
    forall x, n :: x in st.completed && x in code && n in Next(code, scan, x) && InSearch(search, n) ==>
      n in Admitted(st)
  }

  /** Dequeued and queued modules, in order, start with the roots and repeat only among them. */
  ghost predicate Logged(roots: seq<Path>, st: Progress)
    requires NonEmptyPaths(roots)
  {
    && |st.scanned + st.todo| >= |roots| && (st.scanned + st.todo)[..|roots|] == RootNameList(roots)
    && RepeatsOnlyBefore(st.scanned + st.todo, |roots|)
  }

  ghost predicate Inv(roots: seq<Path>, code: map<Name, Path>, scan: Scan, search: Option<seq<Name>>, st: Progress)
    requires NonEmptyPaths(roots)
  {
    && Bounded(roots, search, st) && Recorded(code, scan, st) && Within(roots, code, scan, search, st)
    && Propagated(code, scan, search, st) && Logged(roots, st)
  }

  /** One round of the `while` at :181-194 for a module that has a code path, `grown` being the
      queue after the names found were appended. */
  function After(code: map<Name, Path>, scan: Scan, st: Progress, grown: seq<Name>): Progress
    requires st.todo != [] && st.todo[0] in code
  {
    var m := st.todo[0];
    Progress(st.first[m := scan(m, code[m]).0], st.second[m := scan(m, code[m]).1],
             st.completed + {m}, st.scanned + [m], grown)
  }

  ghost predicate Grows(code: map<Name, Path>, scan: Scan, search: Option<seq<Name>>, st: Progress, grown: seq<Name>) {
    st.todo != [] && st.todo[0] in code &&
    grown == EnqueueAll(st.todo[1..], st.completed + {st.todo[0]}, st.todo[0], search, Next(code, scan, st.todo[0]))
  }

  lemma StepFacts(code: map<Name, Path>, scan: Scan, search: Option<seq<Name>>, st: Progress, grown: seq<Name>)
    requires Grows(code, scan, search, st, grown)
    ensures var m := st.todo[0]; var rest := st.todo[1..];
      && st.todo == [m] + rest && m in Elements(st.todo)
      && Admitted(st) == st.completed + {m} + Elements(rest)
      && |grown| >= |rest| && grown[..|rest|] == rest
      && (forall k :: |rest| <= k < |grown| ==>
            InSearch(search, grown[k]) && grown[k] !in st.completed && grown[k] != m && grown[k] in Next(code, scan, m))
      && (forall i, j :: 0 <= i < j < |grown| && |rest| <= j ==> grown[i] != grown[j])
      && (forall n :: n in Next(code, scan, m) && InSearch(search, n) ==> n in st.completed || n == m || n in grown)
      && Elements(rest) <= Elements(grown)
  {
    var m := st.todo[0];
    var rest := st.todo[1..];
    assert st.todo == [m] + rest;
    ElementsConcat([m], rest);
    EnqueueAllFacts(rest, st.completed + {m}, m, search, Next(code, scan, m));
    forall x | x in Elements(rest) ensures x in Elements(grown) {
      var q :| 0 <= q < |rest| && rest[q] == x;
      assert grown[q] == x;
    }
  }

  lemma StepRecorded(code: map<Name, Path>, scan: Scan, search: Option<seq<Name>>, st: Progress, grown: seq<Name>)
    requires Grows(code, scan, search, st, grown) && Recorded(code, scan, st)
    ensures Recorded(code, scan, After(code, scan, st, grown))
  {
    ElementsConcat(st.scanned, [st.todo[0]]);
  }

  lemma StepBounded(roots: seq<Path>, code: map<Name, Path>, scan: Scan, search: Option<seq<Name>>, st: Progress, grown: seq<Name>)
    requires NonEmptyPaths(roots)
    requires Grows(code, scan, search, st, grown) && Bounded(roots, search, st)
    ensures Bounded(roots, search, After(code, scan, st, grown))
  {
    StepFacts(code, scan, search, st, grown);
    var rest := st.todo[1..];
    forall x | x in Elements(grown) ensures x in Universe(roots, search) {
      var q :| 0 <= q < |grown| && grown[q] == x;
      if q < |rest| { assert rest[q] == x; }
    }
  }

  lemma StepWithin(roots: seq<Path>, code: map<Name, Path>, scan: Scan, search: Option<seq<Name>>, st: Progress, grown: seq<Name>)
    requires NonEmptyPaths(roots)
    requires Grows(code, scan, search, st, grown) && Within(roots, code, scan, search, st)
    ensures Within(roots, code, scan, search, After(code, scan, st, grown))
  {
    StepFacts(code, scan, search, st, grown);
    var m := st.todo[0];
    LeastStep(RootNames(roots), st.completed + {m}, st.todo[1..], grown, code, scan, search, m);
  }

  lemma StepPropagated(code: map<Name, Path>, scan: Scan, search: Option<seq<Name>>, st: Progress, grown: seq<Name>)
    requires Grows(code, scan, search, st, grown) && Propagated(code, scan, search, st)
    ensures Propagated(code, scan, search, After(code, scan, st, grown))
  {
    StepFacts(code, scan, search, st, grown);
    var m := st.todo[0];
    ClosedStep(st.completed + {m}, st.todo[1..], grown, code, scan, search, m);
  }

  lemma StepLogged(roots: seq<Path>, code: map<Name, Path>, scan: Scan, search: Option<seq<Name>>, st: Progress, grown: seq<Name>)
    requires NonEmptyPaths(roots)
    requires Grows(code, scan, search, st, grown) && Recorded(code, scan, st) && Logged(roots, st)
    ensures Logged(roots, After(code, scan, st, grown))
  {
    StepFacts(code, scan, search, st, grown);
    var m := st.todo[0];
    ElementsConcat(st.scanned, [m]);
    assert (st.scanned + [m]) + st.todo[1..] == st.scanned + st.todo;
    RepeatsStillBefore(st.scanned + [m], st.todo[1..], grown, st.completed + {m}, |roots|);
  }

  lemma StepPending(roots: seq<Path>, code: map<Name, Path>, scan: Scan, search: Option<seq<Name>>, st: Progress, grown: seq<Name>)
    requires NonEmptyPaths(roots)
    requires Grows(code, scan, search, st, grown) && Bounded(roots, search, st)
    ensures var st' := After(code, scan, st, grown);
      var p0 := Pending(roots, search, st.completed, st.todo);
      var p1 := Pending(roots, search, st'.completed, st'.todo);
      p1 < p0 || (p1 == p0 && |grown| < |st.todo|)
  {
    StepFacts(code, scan, search, st, grown);
    StepBounded(roots, code, scan, search, st, grown);
    var rest := st.todo[1..];
    var universe := Universe(roots, search);
    var after := st.completed + {st.todo[0]} + Elements(grown);
    if |grown| > |rest| {
      var x := grown[|rest|];
      assert x !in Admitted(st);
      assert x in Elements(grown);
      assert x in universe - Admitted(st) && x !in universe - after;
      StrictSubsetSmaller(universe - after, universe - Admitted(st));
    } else {
      assert grown == rest;
    }
  }

  lemma StepKeepsInv(roots: seq<Path>, code: map<Name, Path>, scan: Scan, search: Option<seq<Name>>, st: Progress, grown: seq<Name>)
    requires NonEmptyPaths(roots)
    requires Grows(code, scan, search, st, grown) && Inv(roots, code, scan, search, st)
    ensures Inv(roots, code, scan, search, After(code, scan, st, grown))
    ensures var st' := After(code, scan, st, grown);
      var p0 := Pending(roots, search, st.completed, st.todo);
      var p1 := Pending(roots, search, st'.completed, st'.todo);
      p1 < p0 || (p1 == p0 && |grown| < |st.todo|)
  {
    StepBounded(roots, code, scan, search, st, grown);
    StepRecorded(code, scan, search, st, grown);
    StepWithin(roots, code, scan, search, st, grown);
    StepPropagated(code, scan, search, st, grown);
    StepLogged(roots, code, scan, search, st, grown);
    StepPending(roots, code, scan, search, st, grown);
  }

  /** A queued module without a code path lies in every closed set holding the roots. */
  lemma StepFactsMissing(roots: seq<Path>, code: map<Name, Path>, scan: Scan, search: Option<seq<Name>>, st: Progress)
    requires NonEmptyPaths(roots) && Within(roots, code, scan, search, st) && st.todo != []
    ensures forall t :: RootNames(roots) <= t && Closed(t, code, scan, search) ==> st.todo[0] in t
  {
    assert st.todo[0] in Elements(st.todo);
  }

  /** With the queue empty, the completed modules are the least closed set holding the roots. */
  lemma Finished(roots: seq<Path>, code: map<Name, Path>, scan: Scan, search: Option<seq<Name>>, st: Progress)
    requires NonEmptyPaths(roots) && Inv(roots, code, scan, search, st) && st.todo == []
    ensures RootNames(roots) <= Elements(st.scanned)
    ensures Closed(Elements(st.scanned), code, scan, search)
    ensures LeastFrom(Elements(st.scanned), RootNames(roots), code, scan, search)
    ensures |st.scanned| >= |roots| && st.scanned[..|roots|] == RootNameList(roots)
    ensures RepeatsOnlyBefore(st.scanned, |roots|)
  {
    ElementsEmpty(st.todo);
    assert Admitted(st) == st.completed == Elements(st.scanned);
    assert st.scanned + st.todo == st.scanned;
  }

  lemma Initially(roots: seq<Path>, code: map<Name, Path>, scan: Scan, search: Option<seq<Name>>)
    requires NonEmptyPaths(roots)
    ensures Inv(roots, code, scan, search, Progress(map[], map[], {}, [], RootNameList(roots)))
  {
    ElementsEmpty([]);
    assert [] + RootNameList(roots) == RootNameList(roots);
  }

  /** The `while` at :181-194 from the initial worklist on; `st` is the state it stops in.
      `readable(m)` says whether the files of module `m` can be looked up. */
  method Drain(roots: seq<Path>, code: map<Name, Path>, scan: Scan, search: Option<seq<Name>>,
               readable: Name -> bool, todo0: seq<Name>)
    returns (res: Resolution, ghost st: Progress)
    requires NonEmptyPaths(roots) && todo0 == RootNameList(roots)
    ensures res.Resolved? ==> (Inv(roots, code, scan, search, st) && st.todo == [] &&
      res.first == st.first && res.second == st.second &&
      forall x :: x in st.completed ==> readable(x))
    ensures res.NoCodePath? ==> (res.name !in code &&
      forall t :: RootNames(roots) <= t && Closed(t, code, scan, search) ==> res.name in t)
    ensures res.NoFileList? ==> (res.name in code && !readable(res.name) &&
      forall t :: RootNames(roots) <= t && Closed(t, code, scan, search) ==> res.name in t)
    ensures todo0 != [] && todo0[0] in code && !readable(todo0[0]) ==> res == NoFileList(todo0[0])
  {
    var todo := todo0;
    var first: map<Name, seq<Name>> := map[];
    var second: map<Name, seq<Name>> := map[];
    var completed: set<Name> := {};
    ghost var scanned: seq<Name> := [];
    Initially(roots, code, scan, search);
    while |todo| > 0
      invariant Inv(roots, code, scan, search, Progress(first, second, completed, scanned, todo))
      invariant forall x :: x in completed ==> readable(x)
      invariant todo0 != [] && todo0[0] in code && !readable(todo0[0]) ==> todo == todo0
      decreases Pending(roots, search, completed, todo), |todo|
    {
      st := Progress(first, second, completed, scanned, todo);
      var m := todo[0];
      if m !in code {
        StepFactsMissing(roots, code, scan, search, st);
        res := NoCodePath(m);
        return;
      }
      if !readable(m) {
        StepFactsMissing(roots, code, scan, search, st);
        res := NoFileList(m);
        return;
      }
      var pair := scan(m, code[m]);
      var grown := Enqueue(todo[1..], completed + {m}, m, search, pair.0 + pair.1);
      StepKeepsInv(roots, code, scan, search, st, grown);
      first := first[m := pair.0];
      second := second[m := pair.1];
      completed := completed + {m};
      scanned := scanned + [m];
      todo := grown;
    }
    st := Progress(first, second, completed, scanned, todo);
    res := Resolved(first, second);
  }

  /** What a run that resolves promises: the result dictionaries are keyed by exactly the
      modules scanned (`scanned`, the dequeued names in order), each scanned at its code path;
      they are the least closed set holding the roots, the roots come first and only a
      repeated root is scanned twice. */
  ghost predicate LeastScan(roots: seq<Path>, code: map<Name, Path>, scan: Scan, search: Option<seq<Name>>,
                            first: map<Name, seq<Name>>, second: map<Name, seq<Name>>, scanned: seq<Name>)
    requires NonEmptyPaths(roots)
  {
    && first.Keys == second.Keys == Elements(scanned)
    && RootNames(roots) <= Elements(scanned)
    && Closed(Elements(scanned), code, scan, search)
    && LeastFrom(Elements(scanned), RootNames(roots), code, scan, search)
    && (forall n :: n in first ==> n in code && first[n] == scan(n, code[n]).0 && second[n] == scan(n, code[n]).1)
    && |scanned| >= |roots| && scanned[..|roots|] == RootNameList(roots)
    && RepeatsOnlyBefore(scanned, |roots|)
  }

  /** A failure names a module that every closed set holding the roots contains. */
  ghost predicate Reachable(roots: seq<Path>, code: map<Name, Path>, scan: Scan, search: Option<seq<Name>>, m: Name)
    requires NonEmptyPaths(roots)
  {
    forall t :: RootNames(roots) <= t && Closed(t, code, scan, search) ==> m in t
  }

  /** `getsubmodulesall` as intended: without `filestoparsedict` each module's tracked files
      are scanned. On success the scan is the least closed one (`LeastScan`) and every scanned
      module's files could be looked up; a failure names a reachable module that has no code
      path, or one that the given dictionary lacks. The default call never fails for want of
      a dictionary. */
  method GetSubmodulesAll(roots: seq<Path>, pathdict: map<Name, Path>, scan: Scan, search: Option<seq<Name>>,
                          listed: Option<set<Name>>)
    returns (res: Resolution, ghost scanned: seq<Name>)
    requires NonEmptyPaths(roots)
    ensures var code := CodePaths(pathdict, roots);
      res.Resolved? ==> (LeastScan(roots, code, scan, search, res.first, res.second, scanned) &&
        forall n :: n in res.first ==> HasFilesOrTracked(listed, n))
    ensures var code := CodePaths(pathdict, roots);
      res.NoCodePath? ==> res.name !in code && Reachable(roots, code, scan, search, res.name)
    ensures var code := CodePaths(pathdict, roots);
      res.NoFileList? ==> (res.name in code && listed.Some? && res.name !in listed.value &&
        Reachable(roots, code, scan, search, res.name))
    ensures listed.None? ==> !res.NoFileList?
  {
    var code, todo := Seed(roots, pathdict);
    ghost var st;
    res, st := Drain(roots, code, scan, search, m => HasFilesOrTracked(listed, m), todo);
    scanned := st.scanned;
    if res.Resolved? {
      Finished(roots, code, scan, search, st);
    }
  }

  /** `getsubmodulesall` as written: `filestoparsedict[modulename]` at :184 is read even when
      the dictionary is `None`, its default (:152), so the default call raises `TypeError` on
      the first root. Otherwise as `GetSubmodulesAll`. */
  method GetSubmodulesAllAsWritten(roots: seq<Path>, pathdict: map<Name, Path>, scan: Scan, search: Option<seq<Name>>,
                                   listed: Option<set<Name>>)
    returns (res: Resolution, ghost scanned: seq<Name>)
    requires NonEmptyPaths(roots)
    ensures var code := CodePaths(pathdict, roots);
      res.Resolved? ==> (LeastScan(roots, code, scan, search, res.first, res.second, scanned) &&
        forall n :: n in res.first ==> HasFiles(listed, n))
    ensures var code := CodePaths(pathdict, roots);
      res.NoCodePath? ==> res.name !in code && Reachable(roots, code, scan, search, res.name)
    ensures var code := CodePaths(pathdict, roots);
      res.NoFileList? ==> (res.name in code && !HasFiles(listed, res.name) &&
        Reachable(roots, code, scan, search, res.name))
    ensures listed.None? && roots != [] ==> res == NoFileList(ModuleName(roots[0]))
  {
    var code, todo := Seed(roots, pathdict);
    ghost var st;
    res, st := Drain(roots, code, scan, search, m => HasFiles(listed, m), todo);
    scanned := st.scanned;
    if res.Resolved? {
      Finished(roots, code, scan, search, st);
    }
    assert roots != [] ==> RootNameList(roots)[0] == ModuleName(roots[0]) && ModuleName(roots[0]) in RootNames(roots);
  }
}
