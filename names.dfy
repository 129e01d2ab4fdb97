/** Names, the optional type, Python's string ordering and `sorted` over a set of names. */
module Names {

  /** A submodule name (the text between a marker and the next `/`). */
  type Name = string

  datatype Option<+T> = None | Some(value: T)

  /** Python's `<` on `str`: lexicographic on code points, a proper prefix is smaller. */
  predicate Below(a: string, b: string)
    decreases |a|
  {
    if |a| == 0 then |b| > 0
    else if |b| == 0 then false
    else a[0] < b[0] || (a[0] == b[0] && Below(a[1..], b[1..]))
  }

  lemma {:induction false} BelowIrreflexive(a: string)
    ensures !Below(a, a)
    decreases |a|
  {
    if |a| > 0 { BelowIrreflexive(a[1..]); }
  }

  lemma {:induction false} BelowTransitive(a: string, b: string, c: string)
    requires Below(a, b) && Below(b, c)
    ensures Below(a, c)
    decreases |a|
  {
    if |a| > 0 && a[0] == b[0] && b[0] == c[0] {
      BelowTransitive(a[1..], b[1..], c[1..]);
    }
  }

  /** Any two distinct strings are ordered one way or the other, and never both ways. */
  lemma {:induction false} BelowTotal(a: string, b: string)
    ensures a != b <==> (Below(a, b) || Below(b, a))
    ensures !(Below(a, b) && Below(b, a))
    decreases |a|
  {
    if |a| > 0 && |b| > 0 && a[0] == b[0] {
      BelowTotal(a[1..], b[1..]);
      if a[1..] == b[1..] {
        assert a == [a[0]] + a[1..] && b == [b[0]] + b[1..];
      }
    }
  }

  ghost predicate StrictlySorted(s: seq<string>) {
    forall i, j :: 0 <= i < j < |s| ==> Below(s[i], s[j])
  }

  function Elements(s: seq<string>): set<string> {
    set x | x in s
  }

  /** No element occurs twice. */
  predicate Distinct(s: seq<string>) {
    forall i, j :: 0 <= i < j < |s| ==> s[i] != s[j]
  }

  /** `xs` lists each element of `names` once: one iteration order of a Python set. */
  predicate Enumerates(xs: seq<string>, names: set<string>) {
    Elements(xs) == names && Distinct(xs)
  }

  /** Inserting a name into a strictly sorted list at its place, ignoring it if present. */
  function Insert(s: seq<string>, x: string): (r: seq<string>)
    requires StrictlySorted(s)
    ensures StrictlySorted(r)
    ensures Elements(r) == Elements(s) + {x}
    decreases |s|
  {
    if s == [] then [x]
    else if Below(x, s[0]) then
      assert forall j :: 0 <= j < |s| ==> Below(s[0], s[j]) || j == 0;
      forall j | 0 < j < |s| ensures Below(x, s[j]) { BelowTransitive(x, s[0], s[j]); }
      [x] + s
    else if x == s[0] then s
    else
      var t := Insert(s[1..], x);
      BelowTotal(x, s[0]);
      assert Elements(s) == {s[0]} + Elements(s[1..]);
      forall j | 0 <= j < |t| ensures Below(s[0], t[j]) {
        assert t[j] in Elements(s[1..]) + {x};
        if t[j] != x {
          var k :| 0 <= k < |s[1..]| && s[1..][k] == t[j];
          assert s[k + 1] == t[j];
        }
      }
      assert Elements([s[0]] + t) == {s[0]} + Elements(t);
      [s[0]] + t
  }

  /** The strictly sorted list of a finite set of names, as Python's `sorted(list(s))` gives it. */
  method SortNames(names: set<string>) returns (r: seq<string>)
    ensures StrictlySorted(r)
    ensures Elements(r) == names
  {
    r := [];
    var rest := names;
    while rest != {}
      invariant StrictlySorted(r)
      invariant Elements(r) + rest == names
      decreases rest
    {
      var x :| x in rest;
      r := Insert(r, x);
      rest := rest - {x};
    }
  }

  lemma ElementsEmpty(s: seq<string>)
    ensures Elements(s) == {} <==> s == []
  {
    if s != [] { assert s[0] in Elements(s); }
  }

  /** The head of a strictly sorted list is below every other element. */
  lemma SortedHeadLeast(s: seq<string>, x: string)
    requires StrictlySorted(s) && s != []
    requires x in Elements(s)
    ensures x == s[0] || Below(s[0], x)
  {
  }

  /** A strictly sorted list is determined by its elements: this is what makes `sorted(set)` deterministic. */
  lemma {:induction false} SortedUnique(s: seq<string>, t: seq<string>)
    requires StrictlySorted(s) && StrictlySorted(t)
    requires Elements(s) == Elements(t)
    ensures s == t
    decreases |s|
  {
    ElementsEmpty(s);
    ElementsEmpty(t);
    if s != [] && t != [] {
      SortedHeadLeast(s, t[0]);
      SortedHeadLeast(t, s[0]);
      BelowTotal(s[0], t[0]);
      forall k | 0 < k < |s| ensures s[k] != s[0] { BelowIrreflexive(s[0]); }
      forall k | 0 < k < |t| ensures t[k] != t[0] { BelowIrreflexive(t[0]); }
      assert Elements(s) == {s[0]} + Elements(s[1..]);
      assert Elements(t) == {t[0]} + Elements(t[1..]);
      assert Elements(s[1..]) == Elements(t[1..]);
      SortedUnique(s[1..], t[1..]);
      assert s == [s[0]] + s[1..] && t == [t[0]] + t[1..];
    }
  }

  /** A strictly sorted list has no duplicates. */
  lemma SortedNoDuplicates(s: seq<string>, i: int, j: int)
    requires StrictlySorted(s)
    requires 0 <= i < j < |s|
    ensures s[i] != s[j]
  {
    BelowIrreflexive(s[i]);
  }
}
