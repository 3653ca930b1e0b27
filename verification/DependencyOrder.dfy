/**
  What the dependency order of a manifest means: it is the least of all topological
  orders when the graph has one, and what cannot be ordered is exactly what lies on,
  or depends on, a cycle (cluster_factory.py:282-308).
 */
module DependencyOrder {
  import opened Ordering
  import opened Kahn

  /** Every artifact once, each after all of its dependencies. */
  ghost predicate Topological(g: Graph, o: seq<string>) {
    Distinct(o) && Elems(o) == g.Keys && DependenciesFirst(g, o, {})
  }

  ghost predicate DependenciesFirst(g: Graph, o: seq<string>, done: set<string>) {
    forall k | 0 <= k < |o| :: Deps(g, o[k]) <= done + Elems(o[..k])
  }

  /** `a` comes no later than `b`: equal, or smaller by the sort key at the first difference. */
  ghost predicate NoLater(g: Graph, a: seq<string>, b: seq<string>) {
    a == b || exists p :: FirstDifference(g, a, b, p)
  }

  ghost predicate FirstDifference(g: Graph, a: seq<string>, b: seq<string>, p: nat) {
    p < |a| && p < |b| && a[..p] == b[..p] && Before(g, a[p], b[p])
  }

  /** A chain of artifacts, each an (effective) dependency of the one before it. */
  ghost predicate Walk(g: Graph, w: seq<string>) {
    && w != []
    && (forall i | 0 <= i < |w| :: w[i] in g)
    && (forall i | 0 <= i < |w| - 1 :: IsEdge(g, w[i], w[i + 1]))
  }

  /** On a cycle; as self-edges are no edges, its length is at least two. */
  ghost predicate OnCycle(g: Graph, c: string) {
    exists w :: ClosedWalk(g, w, c)
  }

  ghost predicate ClosedWalk(g: Graph, w: seq<string>, c: string) {
    Walk(g, w) && |w| >= 2 && w[0] == c == w[|w| - 1]
  }

  /** On a cycle, or transitively depending on an artifact that is. */
  ghost predicate DependsOnCycle(g: Graph, x: string) {
    exists w :: WalkToCycle(g, w, x)
  }

  ghost predicate WalkToCycle(g: Graph, w: seq<string>, x: string) {
    Walk(g, w) && w[0] == x && OnCycle(g, w[|w| - 1])
  }

  lemma CyclesHaveTwoEdges(g: Graph, w: seq<string>, c: string)
    requires ClosedWalk(g, w, c)
    ensures |w| >= 3
  {
    assert IsEdge(g, w[0], w[1]);
  }

  // ---- The reference order emits dependencies first and runs to the end -------------------

  lemma {:induction false} GreedyDependenciesFirst(g: Graph, done: set<string>)
    ensures DependenciesFirst(g, Greedy(g, done), done)
    decreases g.Keys - done
  {
    if Available(g, done) != {} {
      var a := Least(g, Available(g, done));
      var rest := Greedy(g, done + {a});
      GreedyDependenciesFirst(g, done + {a});
      var o := Greedy(g, done);
      assert o == [a] + rest;
      forall k | 0 <= k < |o|
        ensures Deps(g, o[k]) <= done + Elems(o[..k])
      {
        if k > 0 {
          assert o[..k] == [a] + rest[..k - 1];
          assert Elems(o[..k]) == {a} + Elems(rest[..k - 1]);
          assert Deps(g, rest[k - 1]) <= done + {a} + Elems(rest[..k - 1]);
        }
      }
    }
  }

  /** At every turn the least artifact is emitted: an earlier one precedes each later one that was available as well. */
  lemma {:induction false} GreedyTurn(g: Graph, done: set<string>, j: nat, k: nat)
    requires j < k < |Greedy(g, done)| && Deps(g, Greedy(g, done)[k]) <= done + Elems(Greedy(g, done)[..j])
    ensures Before(g, Greedy(g, done)[j], Greedy(g, done)[k])
    decreases j
  {
    var o := Greedy(g, done);
    var rest := Greedy(g, done + {o[0]});
    assert o == [o[0]] + rest && o[k] in Elems(o);
    if j == 0 {
      assert o[..0] == [];
      assert o[k] in Available(g, done);
    } else {
      assert o[..j] == [o[0]] + rest[..j - 1];
      GreedyTurn(g, done + {o[0]}, j - 1, k - 1);
    }
  }

  lemma {:induction false} GreedyExhausts(g: Graph, done: set<string>)
    ensures Available(g, done + Elems(Greedy(g, done))) == {}
    decreases g.Keys - done
  {
    if Available(g, done) == {} {
      assert done + Elems(Greedy(g, done)) == done;
    } else {
      var a := Least(g, Available(g, done));
      GreedyExhausts(g, done + {a});
      assert Elems(Greedy(g, done)) == {a} + Elems(Greedy(g, done + {a}));
      assert done + Elems(Greedy(g, done)) == done + {a} + Elems(Greedy(g, done + {a}));
    }
  }

  /** Against any order of what is left with dependencies first, the greedy order is no later. */
  lemma {:induction false} GreedyIsLeastFrom(g: Graph, done: set<string>, o: seq<string>)
    requires Distinct(o) && Elems(o) == g.Keys - done && DependenciesFirst(g, o, done)
    ensures NoLater(g, Greedy(g, done), o)
    decreases |o|
  {
    ElemsEmpty(o);
    if o == [] {
      ElemsEmpty(Greedy(g, done));
    } else {
      FirstIsAvailable(g, done, o);
      var a := Least(g, Available(g, done));
      if a == o[0] {
        RestOfOrder(g, done, o);
        GreedyIsLeastFrom(g, done + {a}, o[1..]);
        PrependSame(g, a, Greedy(g, done + {a}), o[1..]);
        assert o == [a] + o[1..];
      } else {
        assert FirstDifference(g, Greedy(g, done), o, 0);
      }
    }
  }

  lemma FirstIsAvailable(g: Graph, done: set<string>, o: seq<string>)
    requires o != [] && Elems(o) == g.Keys - done && DependenciesFirst(g, o, done)
    ensures o[0] in Available(g, done)
  {
    assert o[0] in Elems(o) && Deps(g, o[0]) <= done + Elems(o[..0]);
  }

  lemma RestOfOrder(g: Graph, done: set<string>, o: seq<string>)
    requires o != [] && Distinct(o) && Elems(o) == g.Keys - done && DependenciesFirst(g, o, done)
    ensures Distinct(o[1..]) && Elems(o[1..]) == g.Keys - (done + {o[0]}) && DependenciesFirst(g, o[1..], done + {o[0]})
  {
    var rest := o[1..];
    assert o == [o[0]] + rest;
    forall x
      ensures x in Elems(rest) <==> x in g && x !in done && x != o[0]
    {
      assert x in Elems(o) <==> x == o[0] || x in Elems(rest);
    }
    forall k | 0 <= k < |rest|
      ensures Deps(g, rest[k]) <= done + {o[0]} + Elems(rest[..k])
    {
      assert o[..k + 1] == [o[0]] + rest[..k];
      assert Elems(o[..k + 1]) == {o[0]} + Elems(rest[..k]);
      assert Deps(g, o[k + 1]) <= done + Elems(o[..k + 1]);
    }
  }

  lemma PrependSame(g: Graph, a: string, s: seq<string>, t: seq<string>)
    requires NoLater(g, s, t)
    ensures NoLater(g, [a] + s, [a] + t)
  {
    if s != t {
      var p: nat :| FirstDifference(g, s, t, p);
      assert ([a] + s)[..p + 1] == [a] + s[..p] && ([a] + t)[..p + 1] == [a] + t[..p];
      assert FirstDifference(g, [a] + s, [a] + t, p + 1);
    }
  }

  lemma NextIsEmitted(g: Graph, done: set<string>, o: seq<string>, k: nat, emitted: set<string>)
    requires k < |o| && Elems(o) == g.Keys - done && DependenciesFirst(g, o, done)
    requires Available(g, done + emitted) == {} && Elems(o[..k]) <= emitted
    ensures Elems(o[..k + 1]) <= emitted
  {
    assert o[k] in Elems(o);
    assert Deps(g, o[k]) <= done + Elems(o[..k]);
    assert o[k] !in Available(g, done + emitted);
    assert Elems(o[..k + 1]) == Elems(o[..k]) + {o[k]} by {
      assert o[..k + 1] == o[..k] + [o[k]];
    }
  }

  /** If what is left can be ordered at all, the greedy order gets through it. */
  lemma NothingStuck(g: Graph, done: set<string>, o: seq<string>)
    requires Elems(o) == g.Keys - done && DependenciesFirst(g, o, done)
    ensures Elems(Greedy(g, done)) == Elems(o)
  {
    var emitted := Elems(Greedy(g, done));
    GreedyExhausts(g, done);
    for k := 0 to |o|
      invariant Elems(o[..k]) <= emitted
    {
      NextIsEmitted(g, done, o, k, emitted);
    }
    assert o[..|o|] == o;
  }

  // ---- Main results -----------------------------------------------------------------------

  /** When no cycle is reported, the published order is topological and the least such order. */
  lemma OrderIsLeastTopological(g: Graph, other: seq<string>)
    requires Stuck(g) == {}
    ensures Topological(g, PublishedOrder(g))
    ensures Topological(g, other) ==> NoLater(g, PublishedOrder(g), other)
  {
    assert InKeyOrder(g, Stuck(g)) == [];
    assert PublishedOrder(g) == Greedy(g, {});
    assert Elems(Greedy(g, {})) == g.Keys;
    GreedyDependenciesFirst(g, {});
    if Topological(g, other) {
      GreedyIsLeastFrom(g, {}, other);
    }
  }

  lemma NoLaterAntisymmetric(g: Graph, a: seq<string>, b: seq<string>)
    requires NoLater(g, a, b) && NoLater(g, b, a)
    ensures a == b
  {
    if a != b {
      var i: nat :| FirstDifference(g, a, b, i);
      var j: nat :| FirstDifference(g, b, a, j);
      if i < j {
        assert b[..j][i] == a[..j][i];
      } else if j < i {
        assert a[..i][j] == b[..i][j];
      } else {
        KeyLessTransitive(KeyOf(g, a[i]), KeyOf(g, b[i]), KeyOf(g, a[i]));
      }
      KeyLessIrreflexive(KeyOf(g, a[i]));
      KeyLessIrreflexive(KeyOf(g, a[j]));
    }
  }

  /** The published order is the only topological order that is no later than all of them. */
  lemma LeastTopologicalUnique(g: Graph, o: seq<string>)
    requires Stuck(g) == {} && Topological(g, o)
    requires forall other | Topological(g, other) :: NoLater(g, o, other)
    ensures o == PublishedOrder(g)
  {
    OrderIsLeastTopological(g, o);
    NoLaterAntisymmetric(g, o, PublishedOrder(g));
  }

  /** Whatever the graph, the published order lists every artifact exactly once. */
  lemma OrderIsPermutation(g: Graph)
    ensures Distinct(PublishedOrder(g)) && Elems(PublishedOrder(g)) == g.Keys
  {
    var emitted, rest := Greedy(g, {}), InKeyOrder(g, Stuck(g));
    InKeyOrderIncreasing(g, Stuck(g));
    BeforeStrictTotal(g);
    IncreasingDistinct(Less(g), rest);
    assert Elems(emitted + rest) == Elems(emitted) + Elems(rest);
    forall i, j | 0 <= i < j < |emitted + rest|
      ensures (emitted + rest)[i] != (emitted + rest)[j]
    {
      if i < |emitted| <= j {
        assert emitted[i] in Elems(emitted) && rest[j - |emitted|] in Elems(rest);
      }
    }
  }

  /** The cycle report lists exactly the artifacts on a cycle or transitively depending on one. */
  lemma StuckIffDependsOnCycle(g: Graph, x: string)
    ensures x in Stuck(g) <==> DependsOnCycle(g, x)
  {
    if x in Stuck(g) {
      StuckDependsOnCycle(g, x);
    }
    if w :| WalkToCycle(g, w, x) {
      CycleIsStuck(g, w[|w| - 1]);
      if x in Greedy(g, {}) {
        WalkFromEmitted(g, w);
      }
      assert x in Elems(Greedy(g, {})) <==> x in Greedy(g, {});
    }
  }

  /** An artifact order exists exactly when there is no cycle. */
  lemma OrderableIffAcyclic(g: Graph)
    ensures (exists o :: Topological(g, o)) <==> !exists c :: OnCycle(g, c)
    ensures Stuck(g) == {} <==> !exists c :: OnCycle(g, c)
  {
    if c :| OnCycle(g, c) {
      CycleIsStuck(g, c);
      if o :| Topological(g, o) {
        NothingStuck(g, {}, o);
      }
    }
    if Stuck(g) != {} {
      var x :| x in Stuck(g);
      StuckIffDependsOnCycle(g, x);
      var w :| WalkToCycle(g, w, x);
      assert OnCycle(g, w[|w| - 1]);
    } else {
      OrderIsLeastTopological(g, []);
    }
  }

  // ---- Cycles -----------------------------------------------------------------------------

  ghost function IndexOf(o: seq<string>, x: string): (k: nat)
    requires x in o
    ensures k < |o| && o[k] == x
  {
    var k :| 0 <= k < |o| && o[k] == x;
    k
  }

  /** Walking along dependencies from an emitted artifact moves to earlier emitted ones. */
  lemma {:induction false} WalkFromEmitted(g: Graph, w: seq<string>)
    requires Walk(g, w) && w[0] in Greedy(g, {})
    ensures w[|w| - 1] in Greedy(g, {})
    ensures |w| >= 2 ==> IndexOf(Greedy(g, {}), w[|w| - 1]) < IndexOf(Greedy(g, {}), w[0])
    decreases |w|
  {
    if |w| >= 2 {
      var emitted := Greedy(g, {});
      GreedyDependenciesFirst(g, {});
      var k := IndexOf(emitted, w[0]);
      assert IsEdge(g, w[0], w[1]) && w[1] in Deps(g, emitted[k]);
      assert w[1] in Elems(emitted[..k]);
      var j :| 0 <= j < k && emitted[j] == w[1];
      assert IndexOf(emitted, w[1]) == j;
      Segment(g, w, 1, |w|);
      WalkFromEmitted(g, w[1..|w|]);
    }
  }

  lemma CycleIsStuck(g: Graph, c: string)
    requires OnCycle(g, c)
    ensures c in Stuck(g)
  {
    var w :| ClosedWalk(g, w, c);
    if c in Elems(Greedy(g, {})) {
      WalkFromEmitted(g, w);
    }
  }

  lemma StuckHasStuckDependency(g: Graph, x: string) returns (d: string)
    requires x in Stuck(g)
    ensures IsEdge(g, x, d) && d in Stuck(g)
  {
    var emitted := Elems(Greedy(g, {}));
    GreedyExhausts(g, {});
    assert {} + emitted == emitted;
    assert x !in Available(g, emitted);
    d :| d in Deps(g, x) && d !in emitted;
  }

  lemma ExtendWalk(g: Graph, x: string, tail: seq<string>)
    requires Walk(g, tail) && IsEdge(g, x, tail[0])
    ensures Walk(g, [x] + tail)
  {
    var w := [x] + tail;
    forall i | 0 <= i < |w| - 1
      ensures IsEdge(g, w[i], w[i + 1])
    {
      if i > 0 {
        assert IsEdge(g, tail[i - 1], tail[i - 1 + 1]);
      }
    }
  }

  lemma {:induction false} StuckWalk(g: Graph, x: string, n: nat) returns (w: seq<string>)
    requires x in Stuck(g)
    ensures Walk(g, w) && |w| == n + 1 && w[0] == x && Elems(w) <= Stuck(g)
    decreases n
  {
    if n == 0 {
      w := [x];
    } else {
      var d := StuckHasStuckDependency(g, x);
      var tail := StuckWalk(g, d, n - 1);
      ExtendWalk(g, x, tail);
      w := [x] + tail;
      assert Elems(w) == {x} + Elems(tail);
    }
  }

  /** More entries than possible values: some value repeats. */
  lemma SomeRepeat(w: seq<string>, s: set<string>)
    requires Elems(w) <= s && |w| > |s|
    ensures !Distinct(w)
  {
    if Distinct(w) {
      DistinctCardinality(w);
      SubsetCardinality(Elems(w), s);
    }
  }

  lemma Segment(g: Graph, w: seq<string>, i: nat, j: nat)
    requires Walk(g, w) && i < j <= |w|
    ensures Walk(g, w[i..j])
  {
    var c := w[i..j];
    forall k | 0 <= k < |c| - 1
      ensures IsEdge(g, c[k], c[k + 1])
    {
      assert IsEdge(g, w[i + k], w[i + k + 1]);
    }
  }

  lemma WalkAroundCycle(g: Graph, w: seq<string>, i: nat, j: nat)
    requires Walk(g, w) && i < j < |w| && w[i] == w[j]
    ensures DependsOnCycle(g, w[0])
  {
    Segment(g, w, i, j + 1);
    Segment(g, w, 0, i + 1);
    assert ClosedWalk(g, w[i..j + 1], w[i]);
    assert WalkToCycle(g, w[0..i + 1], w[0]);
  }

  lemma StuckDependsOnCycle(g: Graph, x: string)
    requires x in Stuck(g)
    ensures DependsOnCycle(g, x)
  {
    var w := StuckWalk(g, x, |Stuck(g)|);
    SomeRepeat(w, Stuck(g));
    var i, j :| 0 <= i < j < |w| && w[i] == w[j];
    WalkAroundCycle(g, w, i, j);
  }
}
