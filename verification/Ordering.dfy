/**
  The orders the control plane sorts by: Python's code-point order on strings, the
  four-part sort key of the artifact resolver, and a stable sort over any such order.
 */
module Ordering {

  /** Python's `<` on `str`: lexicographic by code point. */
  predicate StrLess(a: string, b: string) {
    |b| > 0 && (|a| == 0 || a[0] < b[0] || (a[0] == b[0] && StrLess(a[1..], b[1..])))
  }

  lemma {:induction false} StrLessIrreflexive(a: string)
    ensures !StrLess(a, a)
  {
    if |a| > 0 {
      StrLessIrreflexive(a[1..]);
    }
  }

  lemma {:induction false} StrLessTransitive(a: string, b: string, c: string)
    requires StrLess(a, b) && StrLess(b, c)
    ensures StrLess(a, c)
  {
    if |a| > 0 && a[0] == b[0] == c[0] {
      StrLessTransitive(a[1..], b[1..], c[1..]);
    }
  }

  lemma {:induction false} StrLessTotal(a: string, b: string)
    ensures a == b || StrLess(a, b) || StrLess(b, a)
  {
    if |a| > 0 && |b| > 0 && a[0] == b[0] {
      StrLessTotal(a[1..], b[1..]);
      assert a == [a[0]] + a[1..] && b == [b[0]] + b[1..];
    }
  }

  /** At the first difference `a` has the smaller character, or has ended. */
  predicate DiffersAt(a: string, b: string, n: nat) {
    n <= |a| && n < |b| && a[..n] == b[..n] && (n == |a| || a[n] < b[n])
  }

  ghost predicate ComesFirst(a: string, b: string) {
    exists n: nat :: DiffersAt(a, b, n)
  }

  lemma SameFirst(a: string, b: string, n: nat)
    requires DiffersAt(a, b, n) && n > 0
    ensures a[0] == b[0]
  {
    assert a[..n][0] == b[..n][0];
  }

  lemma {:induction false} StrLessIff(a: string, b: string)
    ensures StrLess(a, b) <==> ComesFirst(a, b)
  {
    if a == [] || b == [] || a[0] < b[0] {
      assert a[..0] == b[..0];
      if StrLess(a, b) {
        assert DiffersAt(a, b, 0);
      }
    } else if a[0] == b[0] {
      StrLessIff(a[1..], b[1..]);
      if n: nat :| DiffersAt(a[1..], b[1..], n) {
        assert a[..n + 1] == [a[0]] + a[1..][..n] && b[..n + 1] == [b[0]] + b[1..][..n];
        assert DiffersAt(a, b, n + 1);
      }
      if n: nat :| DiffersAt(a, b, n) {
        assert n > 0;
        assert a[1..][..n - 1] == a[..n][1..] && b[1..][..n - 1] == b[..n][1..];
        assert DiffersAt(a[1..], b[1..], n - 1);
      }
    } else if n: nat :| DiffersAt(a, b, n) && n > 0 {
      SameFirst(a, b, n);
    }
  }

  /** The tuple (component rank, name, dependency key, artifact id) that orders artifacts. */
  datatype SortKey = SortKey(rank: string, name: string, dependencyKey: string, id: string)

  /** Python's `<` on that tuple. */
  predicate KeyLess(a: SortKey, b: SortKey) {
    if a.rank != b.rank then StrLess(a.rank, b.rank)
    else if a.name != b.name then StrLess(a.name, b.name)
    else if a.dependencyKey != b.dependencyKey then StrLess(a.dependencyKey, b.dependencyKey)
    else StrLess(a.id, b.id)
  }

  lemma KeyLessIrreflexive(a: SortKey)
    ensures !KeyLess(a, a)
  {
    StrLessIrreflexive(a.id);
  }

  lemma KeyLessTotal(a: SortKey, b: SortKey)
    ensures a == b || KeyLess(a, b) || KeyLess(b, a)
  {
    StrLessTotal(a.rank, b.rank);
    StrLessTotal(a.name, b.name);
    StrLessTotal(a.dependencyKey, b.dependencyKey);
    StrLessTotal(a.id, b.id);
  }

  /** One field of the tuple comparison, chained through a middle value. */
  lemma FieldChain(a: string, b: string, c: string)
    requires a == b || StrLess(a, b)
    requires b == c || StrLess(b, c)
    ensures a == c ==> a == b == c
    ensures a != c ==> StrLess(a, c)
  {
    if a != b && b != c {
      StrLessTransitive(a, b, c);
      StrLessIrreflexive(a);
    }
  }

  lemma KeyLessTransitive(a: SortKey, b: SortKey, c: SortKey)
    requires KeyLess(a, b) && KeyLess(b, c)
    ensures KeyLess(a, c)
  {
    FieldChain(a.rank, b.rank, c.rank);
    if a.rank == c.rank {
      FieldChain(a.name, b.name, c.name);
      if a.name == c.name {
        FieldChain(a.dependencyKey, b.dependencyKey, c.dependencyKey);
        if a.dependencyKey == c.dependencyKey {
          StrLessTransitive(a.id, b.id, c.id);
        }
      }
    }
  }

  /** A strict total order on strings, given as its comparison function. */
  ghost predicate StrictTotal(less: (string, string) -> bool) {
    && (forall a :: !less(a, a))
    && (forall a, b :: a == b || less(a, b) || less(b, a))
    && (forall a, b, c :: less(a, b) && less(b, c) ==> less(a, c))
  }

  lemma StrLessStrictTotal()
    ensures StrictTotal(StrLess)
  {
    forall a, b
      ensures !StrLess(a, a) && (a == b || StrLess(a, b) || StrLess(b, a))
    {
      StrLessIrreflexive(a);
      StrLessTotal(a, b);
    }
    forall a, b, c | StrLess(a, b) && StrLess(b, c)
      ensures StrLess(a, c)
    {
      StrLessTransitive(a, b, c);
    }
  }

  ghost predicate Sorted(less: (string, string) -> bool, s: seq<string>) {
    forall i, j | 0 <= i < j < |s| :: !less(s[j], s[i])
  }

  /** Strictly increasing, hence also free of duplicates. */
  ghost predicate Increasing(less: (string, string) -> bool, s: seq<string>) {
    forall i, j | 0 <= i < j < |s| :: less(s[i], s[j])
  }

  ghost predicate Distinct<T>(s: seq<T>) {
    forall i, j | 0 <= i < j < |s| :: s[i] != s[j]
  }

  ghost function Elems<T>(s: seq<T>): set<T> {
    set x | x in s
  }

  /** Where `x` goes in a sorted sequence: after every element that is not above it. */
  function Insert(less: (string, string) -> bool, x: string, s: seq<string>): (r: seq<string>)
    ensures multiset(r) == multiset(s) + multiset{x}
  {
    if s == [] then [x]
    else if less(x, s[0]) then [x] + s
    else
      assert s == [s[0]] + s[1..];
      [s[0]] + Insert(less, x, s[1..])
  }

  /** `sorted(s, key=...)` for a key that the order `less` compares. */
  function Sort(less: (string, string) -> bool, s: seq<string>): (r: seq<string>)
    ensures multiset(r) == multiset(s)
  {
    if s == [] then []
    else
      assert s == [s[0]] + s[1..];
      Insert(less, s[0], Sort(less, s[1..]))
  }

  lemma {:induction false} InsertKeepsSorted(less: (string, string) -> bool, x: string, s: seq<string>)
    requires StrictTotal(less) && Sorted(less, s)
    ensures Sorted(less, Insert(less, x, s))
  {
    if s == [] || less(x, s[0]) {
    } else {
      InsertKeepsSorted(less, x, s[1..]);
      var rest := Insert(less, x, s[1..]);
      forall y | y in rest
        ensures !less(y, s[0])
      {
        assert y in multiset(rest);
        assert y in s[1..] || y == x;
      }
    }
  }

  lemma {:induction false} SortIsSorted(less: (string, string) -> bool, s: seq<string>)
    requires StrictTotal(less)
    ensures Sorted(less, Sort(less, s))
  {
    if s != [] {
      SortIsSorted(less, s[1..]);
      InsertKeepsSorted(less, s[0], Sort(less, s[1..]));
    }
  }

  /** `[x for x in s if keep(x)]`. */
  function Select(s: seq<string>, keep: string -> bool): (r: seq<string>)
    ensures forall x :: x in r <==> x in s && keep(x)
    ensures Distinct(s) ==> Distinct(r)
  {
    if s == [] then []
    else
      assert s == [s[0]] + s[1..];
      (if keep(s[0]) then [s[0]] else []) + Select(s[1..], keep)
  }

  lemma OneOccurrence<T>(s: seq<T>, k: nat)
    requires k < |s|
    ensures multiset(s)[s[k]] >= 1
    ensures Distinct(s) ==> multiset(s)[s[k]] == 1
  {
    assert s == s[..k] + [s[k]] + s[k + 1..];
  }

  lemma TwoOccurrences<T>(s: seq<T>, i: nat, j: nat)
    requires i < j < |s| && s[i] == s[j]
    ensures multiset(s)[s[i]] >= 2
  {
    assert s == s[..j] + s[j..];
    OneOccurrence(s[..j], i);
    OneOccurrence(s[j..], 0);
  }

  lemma DistinctIffCountOne<T>(s: seq<T>)
    ensures Distinct(s) <==> forall x :: x in s ==> multiset(s)[x] == 1
  {
    if Distinct(s) {
      forall k | 0 <= k < |s|
        ensures multiset(s)[s[k]] == 1
      {
        OneOccurrence(s, k);
      }
    }
    if i, j :| 0 <= i < j < |s| && s[i] == s[j] {
      TwoOccurrences(s, i, j);
    }
  }

  /** Sorting distinct strings gives them back, each once, in increasing order. */
  lemma SortDistinct(less: (string, string) -> bool, s: seq<string>)
    requires StrictTotal(less) && Distinct(s)
    ensures Increasing(less, Sort(less, s))
    ensures Elems(Sort(less, s)) == Elems(s) && |Sort(less, s)| == |s|
  {
    var r := Sort(less, s);
    SortIsSorted(less, s);
    assert forall x :: x in r <==> x in multiset(r);
    assert forall x :: x in s <==> x in multiset(s);
    DistinctIffCountOne(s);
    DistinctIffCountOne(r);
    assert |r| == |multiset(r)| == |multiset(s)| == |s|;
  }

  lemma IncreasingDistinct(less: (string, string) -> bool, s: seq<string>)
    requires StrictTotal(less) && Increasing(less, s)
    ensures Distinct(s)
  {
  }

  lemma ElemsEmpty<T>(s: seq<T>)
    ensures Elems(s) == {} <==> s == []
  {
    if s != [] {
      assert s[0] in Elems(s);
    }
  }

  lemma EmptyOrInhabited<T>(s: seq<T>)
    ensures s == [] || exists x :: x in s
  {
    if s != [] {
      assert s[0] in s;
    }
  }

  /** An increasing sequence is determined by its set of elements. */
  lemma {:induction false} IncreasingUnique(less: (string, string) -> bool, a: seq<string>, b: seq<string>)
    requires StrictTotal(less) && Increasing(less, a) && Increasing(less, b)
    requires Elems(a) == Elems(b)
    ensures a == b
  {
    ElemsEmpty(a);
    ElemsEmpty(b);
    if a != [] && b != [] {
      assert a[0] in Elems(b) && b[0] in Elems(a);
      assert a[0] == b[0];
      forall x
        ensures x in Elems(a[1..]) <==> x in Elems(b[1..])
      {
        assert x in Elems(a[1..]) <==> x in Elems(a) && x != a[0];
        assert x in Elems(b[1..]) <==> x in Elems(b) && x != b[0];
      }
      IncreasingUnique(less, a[1..], b[1..]);
      assert a == [a[0]] + a[1..] && b == [b[0]] + b[1..];
    }
  }

  lemma {:induction false} DistinctCardinality<T>(s: seq<T>)
    requires Distinct(s)
    ensures |Elems(s)| == |s|
  {
    if s != [] {
      var n := |s| - 1;
      assert s == s[..n] + [s[n]];
      DistinctCardinality(s[..n]);
      assert Elems(s) == Elems(s[..n]) + {s[n]};
    }
  }

  lemma SameSizeSubset<T>(a: set<T>, b: set<T>)
    requires a <= b
    ensures |a| == |b| <==> b - a == {}
  {
    assert b == a + (b - a);
    assert |b| == |a| + |b - a|;
  }

  lemma SubsetCardinality<T>(a: set<T>, b: set<T>)
    requires a <= b
    ensures |a| <= |b|
  {
    assert b == a + (b - a);
    assert a !! (b - a);
  }

  /** How often `x` occurs among the first `k` elements of `s`. */
  ghost function CountTo(s: seq<string>, k: nat, x: string): nat
    requires k <= |s|
  {
    if k == 0 then 0 else CountTo(s, k - 1, x) + if s[k - 1] == x then 1 else 0
  }

  ghost function Count(s: seq<string>, x: string): nat {
    CountTo(s, |s|, x)
  }

  lemma {:induction false} CountPositive(s: seq<string>, k: nat, x: string)
    requires k <= |s|
    ensures CountTo(s, k, x) > 0 <==> exists j | 0 <= j < k :: s[j] == x
  {
    if k > 0 {
      CountPositive(s, k - 1, x);
    }
  }

  lemma CountIn(s: seq<string>, x: string)
    ensures Count(s, x) > 0 <==> x in s
  {
    CountPositive(s, |s|, x);
  }

  lemma {:induction false} CountMonotone(s: seq<string>, j: nat, k: nat, x: string)
    requires j <= k <= |s|
    ensures CountTo(s, j, x) <= CountTo(s, k, x)
    decreases k
  {
    if j < k {
      CountMonotone(s, j, k - 1, x);
    }
  }

  lemma {:induction false} CountPrefix(s: seq<string>, t: seq<string>, k: nat, x: string)
    requires k <= |s|
    ensures CountTo(s + t, k, x) == CountTo(s, k, x)
  {
    if k > 0 {
      CountPrefix(s, t, k - 1, x);
    }
  }

  lemma CountAppend(s: seq<string>, y: string, x: string)
    ensures Count(s + [y], x) == Count(s, x) + if y == x then 1 else 0
  {
    CountPrefix(s, [y], |s|, x);
  }

  lemma {:induction false} CountIsMultiplicity(s: seq<string>, x: string)
    ensures Count(s, x) == multiset(s)[x]
  {
    if s != [] {
      var front := s[..|s| - 1];
      assert s == front + [s[|s| - 1]];
      CountIsMultiplicity(front, x);
      CountAppend(front, s[|s| - 1], x);
    }
  }
}
