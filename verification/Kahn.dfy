/**
  The dependency ordering inside the artifact resolver (Kahn's algorithm with a sorted
  ready list, control-plane/src/hermes_control_plane/cluster_factory.py:282-308).

  `Greedy` is the reference definition: emit the least artifact whose dependencies have
  all been emitted, until none is left. `OrderDependencies` is the algorithm of the source:
  in-place indegrees, follower lists and a ready list that is re-sorted after each push.
 */
module Kahn {
  import opened Ordering

  /** What the ordering reads of a resolved artifact. */
  datatype Node = Node(rank: string, name: string, dependencyKey: string, dependsOn: seq<string>)

  type Graph = map<string, Node>

  function KeyOf(g: Graph, id: string): SortKey {
    if id in g then SortKey(g[id].rank, g[id].name, g[id].dependencyKey, id) else SortKey("9", "", "", id)
  }

  predicate Before(g: Graph, a: string, b: string) {
    KeyLess(KeyOf(g, a), KeyOf(g, b))
  }

  function Less(g: Graph): (string, string) -> bool {
    (a: string, b: string) => Before(g, a, b)
  }

  lemma BeforeStrictTotal(g: Graph)
    ensures StrictTotal(Less(g))
  {
    forall a, b
      ensures !Less(g)(a, a) && (a == b || Less(g)(a, b) || Less(g)(b, a))
    {
      KeyLessIrreflexive(KeyOf(g, a));
      KeyLessTotal(KeyOf(g, a), KeyOf(g, b));
      assert KeyOf(g, a).id == a && KeyOf(g, b).id == b;
    }
    forall a, b, c | Less(g)(a, b) && Less(g)(b, c)
      ensures Less(g)(a, c)
    {
      KeyLessTransitive(KeyOf(g, a), KeyOf(g, b), KeyOf(g, c));
    }
  }

  /** An edge of the graph: to an artifact of the bound set, self-edges skipped. */
  predicate IsEdge(g: Graph, id: string, dependency: string) {
    id in g && dependency in g && dependency != id && dependency in g[id].dependsOn
  }

  ghost function Deps(g: Graph, id: string): set<string> {
    set d | d in g && IsEdge(g, id, d)
  }

  // ---- The reference order ------------------------------------------------------------

  /** Not yet emitted, and every dependency emitted. */
  ghost function Available(g: Graph, done: set<string>): set<string> {
    set id | id in g && id !in done && Deps(g, id) <= done
  }

  ghost predicate IsLeast(g: Graph, id: string, s: set<string>) {
    id in s && forall x | x in s :: x == id || Before(g, id, x)
  }

  lemma {:induction false} LeastExists(g: Graph, s: set<string>)
    requires s != {}
    ensures exists id :: IsLeast(g, id, s)
  {
    var x :| x in s;
    if s == {x} {
      assert IsLeast(g, x, s);
    } else {
      var rest := s - {x};
      assert s != rest;
      LeastExists(g, rest);
      var m :| IsLeast(g, m, rest);
      BeforeStrictTotal(g);
      assert Less(g)(x, m) || Less(g)(m, x);
      if Before(g, m, x) {
        assert IsLeast(g, m, s);
      } else {
        forall y | y in s && y != x
          ensures Before(g, x, y)
        {
          assert y in rest && (y == m || Less(g)(m, y)) && Less(g)(x, m);
          assert Less(g)(x, y);
        }
        assert IsLeast(g, x, s);
      }
    }
  }

  ghost function Least(g: Graph, s: set<string>): (id: string)
    requires s != {}
    ensures IsLeast(g, id, s)
  {
    LeastExists(g, s);
    var id :| IsLeast(g, id, s);
    id
  }

  lemma LeastUnique(g: Graph, s: set<string>, a: string)
    requires IsLeast(g, a, s)
    ensures a == Least(g, s)
  {
    BeforeStrictTotal(g);
    var b := Least(g, s);
    assert !(Less(g)(a, b) && Less(g)(b, a));
  }

  ghost function Greedy(g: Graph, done: set<string>): (order: seq<string>)
    ensures Distinct(order) && Elems(order) <= g.Keys - done
    decreases g.Keys - done
  {
    var ready := Available(g, done);
    if ready == {} then []
    else
      var a := Least(g, ready);
      var rest := Greedy(g, done + {a});
      [a] + rest
  }

  /** The artifacts the reference order can never emit. */
  ghost function Stuck(g: Graph): set<string> {
    g.Keys - Elems(Greedy(g, {}))
  }

  /** A set listed in key order. */
  ghost function InKeyOrder(g: Graph, s: set<string>): (r: seq<string>)
    ensures Elems(r) == s
  {
    if s == {} then []
    else
      var a := Least(g, s);
      var rest := InKeyOrder(g, s - {a});
      assert Elems([a] + rest) == {a} + Elems(rest);
      [a] + rest
  }

  /** The order the resolver publishes: what can be emitted, then the stuck artifacts in key order. */
  ghost function PublishedOrder(g: Graph): seq<string> {
    Greedy(g, {}) + InKeyOrder(g, Stuck(g))
  }

  lemma {:induction false} InKeyOrderIncreasing(g: Graph, s: set<string>)
    ensures Increasing(Less(g), InKeyOrder(g, s))
  {
    if s != {} {
      var a := Least(g, s);
      InKeyOrderIncreasing(g, s - {a});
      forall x | x in InKeyOrder(g, s - {a})
        ensures Less(g)(a, x)
      {
        assert x in Elems(InKeyOrder(g, s - {a}));
      }
    }
  }

  // ---- The algorithm ------------------------------------------------------------------

  datatype Edge = Edge(follower: string, dependency: string)

  /** What one entry of a dependency list contributes. */
  ghost function EdgeAt(g: Graph, id: string, k: nat): seq<Edge>
    requires id in g && k < |g[id].dependsOn|
  {
    var d := g[id].dependsOn[k];
    if d in g && d != id then [Edge(id, d)] else []
  }

  /** `before`, then the edges among the first `k` entries of an artifact's list, in order, repeats kept. */
  ghost function WithEdges(g: Graph, before: seq<Edge>, id: string, k: nat): seq<Edge>
    requires id in g && k <= |g[id].dependsOn|
  {
    if k == 0 then before else WithEdges(g, before, id, k - 1) + EdgeAt(g, id, k - 1)
  }

  /** The edges of the first `k` artifacts. */
  ghost function EdgesOf(g: Graph, ids: seq<string>, k: nat): seq<Edge>
    requires k <= |ids| && forall j | 0 <= j < |ids| :: ids[j] in g
  {
    if k == 0 then [] else WithEdges(g, EdgesOf(g, ids, k - 1), ids[k - 1], |g[ids[k - 1]].dependsOn|)
  }

  /** How many of the edges of `id` are not yet satisfied by `done`. */
  ghost function Pending(edges: seq<Edge>, id: string, done: set<string>): nat {
    if edges == [] then 0
    else
      var e := edges[|edges| - 1];
      Pending(edges[..|edges| - 1], id, done) + if e.follower == id && e.dependency !in done then 1 else 0
  }

  /** The follower list of `d`. */
  ghost function FollowersIn(edges: seq<Edge>, d: string): seq<string> {
    if edges == [] then []
    else
      var e := edges[|edges| - 1];
      FollowersIn(edges[..|edges| - 1], d) + if e.dependency == d then [e.follower] else []
  }

  lemma {:induction false} WithEdgesAre(g: Graph, before: seq<Edge>, id: string, k: nat, e: Edge)
    requires id in g && k <= |g[id].dependsOn|
    ensures e in WithEdges(g, before, id, k) <==>
            e in before || (e.follower == id && e.dependency in g && e.dependency != id && e.dependency in g[id].dependsOn[..k])
  {
    if k > 0 {
      WithEdgesAre(g, before, id, k - 1, e);
      assert g[id].dependsOn[..k] == g[id].dependsOn[..k - 1] + [g[id].dependsOn[k - 1]];
    }
  }

  lemma {:induction false} EdgesOfAre(g: Graph, ids: seq<string>, k: nat, e: Edge)
    requires k <= |ids| && forall j | 0 <= j < |ids| :: ids[j] in g
    ensures e in EdgesOf(g, ids, k) <==> e.follower in ids[..k] && IsEdge(g, e.follower, e.dependency)
  {
    if k > 0 {
      EdgesOfAre(g, ids, k - 1, e);
      var last := ids[k - 1];
      WithEdgesAre(g, EdgesOf(g, ids, k - 1), last, |g[last].dependsOn|, e);
      assert g[last].dependsOn[..|g[last].dependsOn|] == g[last].dependsOn;
      assert ids[..k] == ids[..k - 1] + [last];
    }
  }

  lemma {:induction false} PendingZero(edges: seq<Edge>, id: string, done: set<string>)
    ensures Pending(edges, id, done) == 0 <==> forall e | e in edges && e.follower == id :: e.dependency in done
  {
    if edges != [] {
      PendingZero(edges[..|edges| - 1], id, done);
      assert edges == edges[..|edges| - 1] + [edges[|edges| - 1]];
    }
  }

  /** Emitting `a` satisfies one edge of `id` per entry of `id` in the follower list of `a`. */
  lemma {:induction false} PendingAfter(edges: seq<Edge>, id: string, done: set<string>, a: string)
    requires a !in done
    ensures Pending(edges, id, done) == Pending(edges, id, done + {a}) + Count(FollowersIn(edges, a), id)
  {
    if edges != [] {
      var front, e := edges[..|edges| - 1], edges[|edges| - 1];
      PendingAfter(front, id, done, a);
      CountAppend(FollowersIn(front, a), e.follower, id);
      assert FollowersIn(edges, a) == FollowersIn(front, a) + if e.dependency == a then [e.follower] else [];
      if e.dependency != a {
        assert FollowersIn(edges, a) == FollowersIn(front, a);
      }
    }
  }

  lemma {:induction false} FollowersAre(edges: seq<Edge>, d: string, x: string)
    ensures x in FollowersIn(edges, d) <==> Edge(x, d) in edges
  {
    if edges != [] {
      FollowersAre(edges[..|edges| - 1], d, x);
      assert edges == edges[..|edges| - 1] + [edges[|edges| - 1]];
    }
  }

  /** The two dictionaries of the source agree with the edges entered so far. */
  ghost predicate Books(g: Graph, edges: seq<Edge>, indegree: map<string, int>, followers: map<string, seq<string>>) {
    && indegree.Keys == followers.Keys == g.Keys
    && (forall x {:trigger indegree[x]} | x in g :: indegree[x] == Pending(edges, x, {}))
    && (forall d {:trigger followers[d]} | d in g :: followers[d] == FollowersIn(edges, d))
  }

  lemma EnterEdge(g: Graph, edges: seq<Edge>, indegree: map<string, int>, followers: map<string, seq<string>>, e: Edge)
    requires Books(g, edges, indegree, followers)
    requires e.follower in g && e.dependency in g
    ensures Books(g, edges + [e], indegree[e.follower := indegree[e.follower] + 1],
                  followers[e.dependency := followers[e.dependency] + [e.follower]])
  {
    assert (edges + [e])[..|edges|] == edges;
  }

  /** One entry of one artifact's list: an edge is counted and entered, anything else passed over. */
  method ReadEntry(g: Graph, id: string, k: nat, indegree0: map<string, int>, followers0: map<string, seq<string>>, ghost before: seq<Edge>)
      returns (indegree: map<string, int>, followers: map<string, seq<string>>, ghost edges: seq<Edge>)
    requires id in g && k < |g[id].dependsOn|
    requires Books(g, before, indegree0, followers0)
    ensures edges == before + EdgeAt(g, id, k)
    ensures Books(g, edges, indegree, followers)
  {
    indegree, followers := indegree0, followers0;
    var dependency := g[id].dependsOn[k];
    if dependency in g && dependency != id {
      EnterEdge(g, before, indegree, followers, Edge(id, dependency));
      indegree := indegree[id := indegree[id] + 1];
      followers := followers[dependency := followers[dependency] + [id]];
      edges := before + [Edge(id, dependency)];
    } else {
      edges := before;
    }
  }

  /** The inner edge loop: every entry of one artifact's list. */
  method AddEdges(g: Graph, id: string, indegree0: map<string, int>, followers0: map<string, seq<string>>, ghost before: seq<Edge>)
      returns (indegree: map<string, int>, followers: map<string, seq<string>>)
    requires id in g && Books(g, before, indegree0, followers0)
    ensures Books(g, WithEdges(g, before, id, |g[id].dependsOn|), indegree, followers)
  {
    indegree, followers := indegree0, followers0;
    ghost var edges := before;
    for k := 0 to |g[id].dependsOn|
      invariant edges == WithEdges(g, before, id, k)
      invariant Books(g, edges, indegree, followers)
    {
      indegree, followers, edges := ReadEntry(g, id, k, indegree, followers, edges);
    }
  }

  /** The graph loops of the source: every artifact's indegree and followers. */
  method BuildGraph(ids: seq<string>, g: Graph) returns (indegree: map<string, int>, followers: map<string, seq<string>>)
    requires forall k | 0 <= k < |ids| :: ids[k] in g
    ensures Books(g, EdgesOf(g, ids, |ids|), indegree, followers)
  {
    indegree := map id | id in g :: 0;
    followers := map id | id in g :: [];
    ghost var entered := [];
    for i := 0 to |ids|
      invariant entered == EdgesOf(g, ids, i)
      invariant Books(g, entered, indegree, followers)
    {
      indegree, followers := AddEdges(g, ids[i], indegree, followers, entered);
      entered := WithEdges(g, entered, ids[i], |g[ids[i]].dependsOn|);
    }
  }

  /** The ready list: in key order, holding exactly the elements of `s`. */
  ghost predicate ReadyList(g: Graph, ready: seq<string>, s: set<string>) {
    Increasing(Less(g), ready) && Elems(ready) == s
  }

  /** `ready.append(id); ready.sort(key=sort_key)`. */
  method Push(g: Graph, ready: seq<string>, id: string, ghost s: set<string>) returns (next: seq<string>)
    requires ReadyList(g, ready, s) && id !in s
    ensures ReadyList(g, next, s + {id})
  {
    BeforeStrictTotal(g);
    IncreasingDistinct(Less(g), ready);
    assert id !in Elems(ready);
    var pushed := ready + [id];
    SortDistinct(Less(g), pushed);
    assert Elems(pushed) == Elems(ready) + {id};
    next := Sort(Less(g), pushed);
  }

  /** Those among the first `k` followers whose indegree is down to zero. */
  ghost function Zeroed(fs: seq<string>, k: nat, indegree: map<string, int>): set<string>
    requires k <= |fs|
  {
    set j | 0 <= j < k && fs[j] in indegree && indegree[fs[j]] == 0 :: fs[j]
  }

  lemma LowerOne(fs: seq<string>, k: nat, indegree: map<string, int>)
    requires k < |fs| && fs[k] in indegree && indegree[fs[k]] > 0
    ensures var next := indegree[fs[k] := indegree[fs[k]] - 1];
            && fs[k] !in Zeroed(fs, k, indegree)
            && Zeroed(fs, k + 1, next) == Zeroed(fs, k, indegree) + if next[fs[k]] == 0 then {fs[k]} else {}
  {
  }

  /** The follower loop: lower each indegree, push what reaches zero. */
  method Release(g: Graph, fs: seq<string>, indegree0: map<string, int>, ready0: seq<string>, ghost s: set<string>)
      returns (indegree: map<string, int>, ready: seq<string>)
    requires ReadyList(g, ready0, s) && indegree0.Keys == g.Keys
    requires forall x | x in fs :: x in g && x !in s
    requires forall x | x in g :: Count(fs, x) <= indegree0[x]
    ensures indegree.Keys == g.Keys
    ensures forall x | x in g :: indegree[x] == indegree0[x] - Count(fs, x)
    ensures ReadyList(g, ready, s + Zeroed(fs, |fs|, indegree))
  {
    indegree, ready := indegree0, ready0;
    for k := 0 to |fs|
      invariant indegree.Keys == g.Keys
      invariant forall x | x in g :: indegree[x] == indegree0[x] - CountTo(fs, k, x)
      invariant ReadyList(g, ready, s + Zeroed(fs, k, indegree))
    {
      var follower := fs[k];
      assert follower in fs;
      CountMonotone(fs, k + 1, |fs|, follower);
      ghost var was := Zeroed(fs, k, indegree);
      LowerOne(fs, k, indegree);
      indegree := indegree[follower := indegree[follower] - 1];
      if indegree[follower] == 0 {
        ready := Push(g, ready, follower, s + was);
        assert s + was + {follower} == s + (was + {follower});
      }
    }
  }

  // ---- The main loop ------------------------------------------------------------------

  /** Indegrees count the unsatisfied edges; emitted artifacts are closed under dependencies. */
  ghost predicate Degrees(g: Graph, edges: seq<Edge>, indegree: map<string, int>, done: set<string>) {
    && indegree.Keys == g.Keys
    && (forall x {:trigger indegree[x]} | x in g :: indegree[x] == if x in done then 0 else Pending(edges, x, done))
    && (forall x | x in done :: x in g && Deps(g, x) <= done)
  }

  ghost predicate AllEdges(g: Graph, edges: seq<Edge>) {
    forall x, d :: Edge(x, d) in edges <==> IsEdge(g, x, d)
  }

  lemma EdgesOfAll(g: Graph, ids: seq<string>)
    requires (forall j | 0 <= j < |ids| :: ids[j] in g) && Elems(ids) == g.Keys
    ensures AllEdges(g, EdgesOf(g, ids, |ids|))
  {
    assert ids[..|ids|] == ids;
    forall x, d
      ensures Edge(x, d) in EdgesOf(g, ids, |ids|) <==> IsEdge(g, x, d)
    {
      EdgesOfAre(g, ids, |ids|, Edge(x, d));
      assert x in g <==> x in Elems(ids);
    }
  }

  lemma AvailableIffZero(g: Graph, edges: seq<Edge>, done: set<string>, x: string)
    requires AllEdges(g, edges) && x in g && x !in done
    ensures x in Available(g, done) <==> Pending(edges, x, done) == 0
  {
    PendingZero(edges, x, done);
    if Pending(edges, x, done) == 0 {
      forall d | d in Deps(g, x)
        ensures d in done
      {
        assert Edge(x, d) in edges;
      }
    }
    if x in Available(g, done) {
      forall e | e in edges && e.follower == x
        ensures e.dependency in done
      {
        assert e == Edge(x, e.dependency) && IsEdge(g, x, e.dependency);
        assert e.dependency in Deps(g, x);
      }
    }
  }

  /** What holds of the followers of the artifact being emitted. */
  lemma FollowersOfNext(g: Graph, edges: seq<Edge>, indegree: map<string, int>, done: set<string>, a: string, x: string)
    requires AllEdges(g, edges) && Degrees(g, edges, indegree, done) && a in Available(g, done) && x in g
    ensures Count(FollowersIn(edges, a), x) <= indegree[x]
    ensures x !in done ==> indegree[x] - Count(FollowersIn(edges, a), x) == Pending(edges, x, done + {a})
    ensures x in FollowersIn(edges, a) ==> x !in done && x != a && x !in Available(g, done)
  {
    var fs := FollowersIn(edges, a);
    PendingAfter(edges, x, done, a);
    CountIn(fs, x);
    FollowersAre(edges, a, x);
    assert indegree[x] == if x in done then 0 else Pending(edges, x, done);
    if x in fs {
      assert a in Deps(g, x);
    }
  }

  /** One turn of the loop keeps the indegrees and the ready set right. */
  lemma AfterEmission(g: Graph, edges: seq<Edge>, indegree: map<string, int>, next: map<string, int>, done: set<string>, a: string, fs: seq<string>)
    requires AllEdges(g, edges) && Degrees(g, edges, indegree, done) && a in Available(g, done)
    requires forall x :: Count(fs, x) == Count(FollowersIn(edges, a), x)
    requires next.Keys == g.Keys && forall x | x in g :: next[x] == indegree[x] - Count(fs, x)
    ensures Degrees(g, edges, next, done + {a})
    ensures Available(g, done) - {a} + Zeroed(fs, |fs|, next) == Available(g, done + {a})
  {
    forall x | x in g
      ensures next[x] == if x in done + {a} then 0 else Pending(edges, x, done + {a})
    {
      FollowersOfNext(g, edges, indegree, done, a, x);
      AvailableIffZero(g, edges, done, a);
      CountIn(FollowersIn(edges, a), x);
    }
    forall x | x in g && x !in done + {a}
      ensures x in Available(g, done + {a}) <==> x in Available(g, done) || x in Zeroed(fs, |fs|, next)
    {
      FollowersOfNext(g, edges, indegree, done, a, x);
      AvailableIffZero(g, edges, done, x);
      AvailableIffZero(g, edges, done + {a}, x);
      CountIn(fs, x);
    }
    forall x | x in Zeroed(fs, |fs|, next)
      ensures x in g && x !in done + {a}
    {
      FollowersOfNext(g, edges, indegree, done, a, x);
      CountIn(fs, x);
      CountIn(FollowersIn(edges, a), x);
    }
  }

  lemma HeadIsLeast(g: Graph, ready: seq<string>, s: set<string>)
    requires ReadyList(g, ready, s) && ready != []
    ensures ready[0] in s && ready[0] == Least(g, s)
    ensures ReadyList(g, ready[1..], s - {ready[0]})
  {
    var a := ready[0];
    assert a in Elems(ready);
    assert IsLeast(g, a, s) by {
      forall x | x in s
        ensures x == a || Before(g, a, x)
      {
        assert x in Elems(ready);
        var k :| 0 <= k < |ready| && ready[k] == x;
        assert k > 0 ==> Less(g)(ready[0], ready[k]);
      }
    }
    LeastUnique(g, s, a);
    BeforeStrictTotal(g);
    IncreasingDistinct(Less(g), ready);
    assert ready == [a] + ready[1..];
    forall x
      ensures x in Elems(ready[1..]) <==> x in s && x != a
    {
      assert x in Elems(ready) <==> x == a || x in Elems(ready[1..]);
    }
  }

  lemma SortCounts(less: (string, string) -> bool, s: seq<string>)
    ensures forall x :: Count(Sort(less, s), x) == Count(s, x)
  {
    forall x
      ensures Count(Sort(less, s), x) == Count(s, x)
    {
      CountIsMultiplicity(s, x);
      CountIsMultiplicity(Sort(less, s), x);
    }
  }

  /** The followers of the next artifact can be released. */
  lemma ReleaseReady(g: Graph, edges: seq<Edge>, indegree: map<string, int>, done: set<string>, a: string, fs: seq<string>)
    requires AllEdges(g, edges) && Degrees(g, edges, indegree, done) && a in Available(g, done)
    requires forall x :: Count(fs, x) == Count(FollowersIn(edges, a), x)
    ensures forall x | x in g :: Count(fs, x) <= indegree[x]
    ensures forall x | x in fs :: x in g && x !in Available(g, done) - {a}
  {
    forall x
      ensures x in g ==> Count(fs, x) <= indegree[x]
      ensures x in fs ==> x in g && x !in Available(g, done) - {a}
    {
      CountIn(fs, x);
      CountIn(FollowersIn(edges, a), x);
      FollowersAre(edges, a, x);
      if x in fs {
        assert IsEdge(g, x, a);
      }
      if x in g {
        FollowersOfNext(g, edges, indegree, done, a, x);
      }
    }
  }

  /** One turn of the `while ready` loop: emit the head, release its followers. */
  method EmitHead(g: Graph, followers: map<string, seq<string>>, indegree0: map<string, int>, ready0: seq<string>,
                  ghost edges: seq<Edge>, ghost done: set<string>)
      returns (indegree: map<string, int>, ready: seq<string>)
    requires AllEdges(g, edges) && Degrees(g, edges, indegree0, done)
    requires followers.Keys == g.Keys && forall d {:trigger followers[d]} | d in g :: followers[d] == FollowersIn(edges, d)
    requires ready0 != [] && ReadyList(g, ready0, Available(g, done))
    ensures Degrees(g, edges, indegree, done + {ready0[0]})
    ensures ReadyList(g, ready, Available(g, done + {ready0[0]}))
    ensures Greedy(g, done) == [ready0[0]] + Greedy(g, done + {ready0[0]})
  {
    var a := ready0[0];
    HeadIsLeast(g, ready0, Available(g, done));
    var fs := Sort(Less(g), followers[a]);
    SortCounts(Less(g), followers[a]);
    ReleaseReady(g, edges, indegree0, done, a, fs);
    indegree, ready := Release(g, fs, indegree0, ready0[1..], Available(g, done) - {a});
    AfterEmission(g, edges, indegree0, indegree, done, a, fs);
  }

  lemma Accumulate(g: Graph, ordered: seq<string>, done: set<string>, a: string)
    requires done == Elems(ordered) && ordered + Greedy(g, done) == Greedy(g, {})
    requires Greedy(g, done) == [a] + Greedy(g, done + {a})
    ensures done + {a} == Elems(ordered + [a])
    ensures ordered + [a] + Greedy(g, done + {a}) == Greedy(g, {})
  {
    assert ordered + ([a] + Greedy(g, done + {a})) == ordered + [a] + Greedy(g, done + {a});
  }

  lemma GreedyEnd(g: Graph, done: set<string>)
    requires Available(g, done) == {}
    ensures Greedy(g, done) == []
  {
  }

  /** `sorted([id for id, degree in indegree.items() if degree == 0], key=sort_key)`. */
  method SourcesInOrder(ids: seq<string>, g: Graph, indegree: map<string, int>, ghost edges: seq<Edge>) returns (ready: seq<string>)
    requires Distinct(ids) && Elems(ids) == g.Keys
    requires AllEdges(g, edges) && Degrees(g, edges, indegree, {})
    ensures ReadyList(g, ready, Available(g, {}))
  {
    var sources := Select(ids, id => id in indegree && indegree[id] == 0);
    BeforeStrictTotal(g);
    SortDistinct(Less(g), sources);
    ready := Sort(Less(g), sources);
    forall x
      ensures x in Elems(sources) <==> x in Available(g, {})
    {
      assert x in Elems(ids) <==> x in g;
      if x in g {
        AvailableIffZero(g, edges, {}, x);
      }
    }
  }

  lemma StuckArePositive(ids: seq<string>, g: Graph, edges: seq<Edge>, indegree: map<string, int>, emitted: seq<string>, positive: seq<string>)
    requires Elems(ids) == g.Keys && emitted == Greedy(g, {})
    requires AllEdges(g, edges) && Degrees(g, edges, indegree, Elems(emitted)) && Available(g, Elems(emitted)) == {}
    requires forall x :: x in positive <==> x in ids && x in indegree && indegree[x] > 0
    ensures Elems(positive) == Stuck(g)
  {
    forall x
      ensures x in Elems(positive) <==> x in Stuck(g)
    {
      assert x in Elems(ids) <==> x in g;
      if x in g {
        assert indegree[x] == if x in Elems(emitted) then 0 else Pending(edges, x, Elems(emitted));
        if x !in Elems(emitted) {
          AvailableIffZero(g, edges, Elems(emitted), x);
        }
      }
    }
  }

  /** The `dependency-cycle` report: the ids left with a positive indegree, sorted. */
  method ReportCycle(ids: seq<string>, g: Graph, indegree: map<string, int>, ghost emitted: seq<string>, ghost edges: seq<Edge>)
      returns (cycleIds: seq<string>)
    requires Distinct(ids) && Elems(ids) == g.Keys && emitted == Greedy(g, {})
    requires AllEdges(g, edges) && Degrees(g, edges, indegree, Elems(emitted)) && Available(g, Elems(emitted)) == {}
    ensures Increasing(StrLess, cycleIds) && Elems(cycleIds) == Stuck(g)
  {
    var positive := Select(ids, id => id in indegree && indegree[id] > 0);
    StuckArePositive(ids, g, edges, indegree, emitted, positive);
    StrLessStrictTotal();
    SortDistinct(StrLess, positive);
    cycleIds := Sort(StrLess, positive);
  }

  /** `ordered_ids.extend(...)`: whatever was not emitted, in key order. */
  method AppendRest(ids: seq<string>, g: Graph, emitted: seq<string>) returns (ordered: seq<string>)
    requires Distinct(ids) && Elems(ids) == g.Keys && emitted == Greedy(g, {})
    ensures ordered == PublishedOrder(g)
  {
    var rest := Select(ids, id => id !in emitted);
    RestIsStuck(ids, g, emitted, rest);
    SortedRest(g, rest);
    ordered := emitted + Sort(Less(g), rest);
  }

  lemma RestIsStuck(ids: seq<string>, g: Graph, emitted: seq<string>, rest: seq<string>)
    requires Elems(ids) == g.Keys && emitted == Greedy(g, {}) && forall x :: x in rest <==> x in ids && x !in emitted
    ensures Elems(rest) == Stuck(g)
  {
    forall x
      ensures x in Elems(rest) <==> x in Stuck(g)
    {
      assert x in Elems(ids) <==> x in g;
    }
  }

  lemma SortedRest(g: Graph, rest: seq<string>)
    requires Distinct(rest) && Elems(rest) == Stuck(g)
    ensures Sort(Less(g), rest) == InKeyOrder(g, Stuck(g))
  {
    BeforeStrictTotal(g);
    SortDistinct(Less(g), rest);
    InKeyOrderIncreasing(g, Stuck(g));
    IncreasingUnique(Less(g), Sort(Less(g), rest), InKeyOrder(g, Stuck(g)));
  }

  lemma StuckIffShort(ids: seq<string>, g: Graph)
    requires Distinct(ids) && Elems(ids) == g.Keys
    ensures |Greedy(g, {})| == |ids| <==> Stuck(g) == {}
  {
    DistinctCardinality(ids);
    DistinctCardinality(Greedy(g, {}));
    SameSizeSubset(Elems(Greedy(g, {})), g.Keys);
  }

  /** The `while ready` loop of the source computes the reference order. */
  method EmitReady(ids: seq<string>, g: Graph, followers: map<string, seq<string>>, indegree0: map<string, int>, ghost edges: seq<Edge>)
      returns (ordered: seq<string>, indegree: map<string, int>)
    requires Distinct(ids) && Elems(ids) == g.Keys
    requires AllEdges(g, edges) && Degrees(g, edges, indegree0, {})
    requires followers.Keys == g.Keys && forall d {:trigger followers[d]} | d in g :: followers[d] == FollowersIn(edges, d)
    ensures ordered == Greedy(g, {})
    ensures Degrees(g, edges, indegree, Elems(ordered)) && Available(g, Elems(ordered)) == {}
  {
    indegree := indegree0;
    var ready := SourcesInOrder(ids, g, indegree, edges);
    ordered := [];
    ghost var done: set<string> := {};
    while ready != []
      invariant done == Elems(ordered)
      invariant Degrees(g, edges, indegree, done)
      invariant ReadyList(g, ready, Available(g, done))
      invariant ordered + Greedy(g, done) == Greedy(g, {})
      decreases g.Keys - done
    {
      var a := ready[0];
      HeadIsLeast(g, ready, Available(g, done));
      indegree, ready := EmitHead(g, followers, indegree, ready, edges, done);
      Accumulate(g, ordered, done, a);
      ordered := ordered + [a];
      done := done + {a};
    }
    ElemsEmpty(ready);
    GreedyEnd(g, done);
  }

  /** The ordering as the source computes it. */
  method OrderDependencies(ids: seq<string>, g: Graph) returns (ordered: seq<string>, cyclic: bool, cycleIds: seq<string>)
    requires Distinct(ids) && Elems(ids) == g.Keys
    ensures ordered == PublishedOrder(g)
    ensures cyclic <==> Stuck(g) != {}
    ensures cyclic ==> Increasing(StrLess, cycleIds) && Elems(cycleIds) == Stuck(g)
  {
    forall j | 0 <= j < |ids|
      ensures ids[j] in g
    {
      assert ids[j] in Elems(ids);
    }
    var indegree, followers := BuildGraph(ids, g);
    ghost var edges := EdgesOf(g, ids, |ids|);
    EdgesOfAll(g, ids);
    var emitted;
    emitted, indegree := EmitReady(ids, g, followers, indegree, edges);
    StuckIffShort(ids, g);
    ordered, cyclic, cycleIds := emitted, |emitted| != |ids|, [];
    if cyclic {
      cycleIds := ReportCycle(ids, g, indegree, emitted, edges);
      ordered := AppendRest(ids, g, emitted);
    } else {
      assert emitted + [] == emitted;
    }
  }
}
