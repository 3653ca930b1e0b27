/**
  When a resolution is READY, and what its order and resume point promise
  (cluster_factory.py:197-330).
 */
module ReadyManifest {
  import opened Ordering
  import opened Kahn
  import opened DependencyOrder
  import opened Blueprint
  import Text

  // ---- The declarative meaning of READY ---------------------------------------------------

  /** The artifact bound as `id` exists, fits a required component, is pinned, mirrored and well labelled. */
  predicate Bindable(parse: string -> Url, byId: map<string, Artifact>, required: map<(string, string), Required>, id: string) {
    && id in byId
    && var a := byId[id];
       var component := (Label(a, COMPONENT_LABEL), Label(a, NAME_LABEL));
       && component in required && a.version == required[component].version
       && 0 < |Label(a, KEY_LABEL)| <= 120
       && OfflineReferenceOk(parse(a.destination))
       && Mirrored(a)
       && !HasDuplicates(Text.DependencyList(Label(a, DEPENDS_ON_LABEL)))
  }

  ghost function KeyTupleById(byId: map<string, Artifact>, id: string): KeyTuple
    requires id in byId
  {
    (Label(byId[id], COMPONENT_LABEL), Label(byId[id], NAME_LABEL), Label(byId[id], KEY_LABEL))
  }

  ghost function DependenciesOf(byId: map<string, Artifact>, id: string): seq<string>
    requires id in byId
  {
    Text.DependencyList(Label(byId[id], DEPENDS_ON_LABEL))
  }

  ghost function BoundItems(parse: string -> Url, byId: map<string, Artifact>, bound: set<string>): map<string, Item> {
    map id | id in bound && id in byId :: ItemOf(parse, byId[id], id)
  }

  /** A set of bound ids that covers the blueprint with safe, mirrored artifacts. */
  ghost predicate WellBound(parse: string -> Url, byId: map<string, Artifact>, required: seq<Required>, bound: set<string>) {
    && (forall id | id in bound :: Bindable(parse, byId, RequiredMap(required), id))
    && (forall a, b | a in bound && b in bound && a != b :: KeyTupleById(byId, a) != KeyTupleById(byId, b))
    && (forall r | r in required :: exists id :: id in bound && Covers(byId, id, r))
    && (forall id | id in bound :: forall d | d in DependenciesOf(byId, id) :: d != id && d in bound)
  }

  /** Besides, no artifact depends on itself through others. */
  ghost predicate Complete(parse: string -> Url, byId: map<string, Artifact>, required: seq<Required>, bound: set<string>) {
    && WellBound(parse, byId, required, bound)
    && !(exists c :: OnCycle(GraphOf(BoundItems(parse, byId, bound)), c))
  }

  ghost predicate Covers(byId: map<string, Artifact>, id: string, r: Required) {
    id in byId && Label(byId[id], COMPONENT_LABEL) == r.component && Label(byId[id], NAME_LABEL) == r.name
  }

  // ---- The binding loop raises no issue exactly on bindable, distinguishable artifacts -----

  ghost predicate CleanTo(parse: string -> Url, byId: map<string, Artifact>, required: map<(string, string), Required>, ids: seq<string>, k: nat)
    requires k <= |ids|
  {
    && (forall i | 0 <= i < k :: Bindable(parse, byId, required, ids[i]))
    && (forall i, j | 0 <= i < j < k :: KeyTupleById(byId, ids[i]) != KeyTupleById(byId, ids[j]))
  }

  ghost predicate AllEntries(parse: string -> Url, byId: map<string, Artifact>, ids: seq<string>, k: nat, resolved: seq<Item>)
    requires k <= |ids|
  {
    |resolved| == k && forall i | 0 <= i < k :: ids[i] in byId && resolved[i] == ItemOf(parse, byId[ids[i]], ids[i])
  }

  lemma CleanBindings(parse: string -> Url, byId: map<string, Artifact>, required: map<(string, string), Required>, ids: seq<string>)
    ensures CleanSoFar(parse, byId, required, ids, |ids|, BindTo(parse, byId, required, ids, |ids|))
  {
    var trace := BindTrace(parse, byId, required, ids);
    CleanTrace(parse, byId, required, ids, trace, |ids|);
  }

  /** The bindings before the first turn and after each. */
  lemma BindTrace(parse: string -> Url, byId: map<string, Artifact>, required: map<(string, string), Required>, ids: seq<string>)
      returns (trace: seq<Bindings>)
    ensures |trace| == |ids| + 1 && trace[0] == Bindings([], []) && trace[|ids|] == BindTo(parse, byId, required, ids, |ids|)
    ensures forall k | 0 <= k < |ids| :: IsNext(parse, byId, required, ids[k], trace[k], trace[k + 1])
  {
    trace := TraceTo(parse, byId, required, ids, |ids|);
    forall k | 0 <= k < |ids|
      ensures IsNext(parse, byId, required, ids[k], trace[k], trace[k + 1])
    {
      NextInTrace(parse, byId, required, ids, trace, k);
    }
  }

  lemma TraceTo(parse: string -> Url, byId: map<string, Artifact>, required: map<(string, string), Required>, ids: seq<string>, n: nat)
      returns (trace: seq<Bindings>)
    requires n <= |ids|
    ensures |trace| == n + 1 && trace[0] == Bindings([], [])
    ensures forall k {:trigger trace[k]} | 0 <= k <= n :: trace[k] == BindTo(parse, byId, required, ids, k)
  {
    trace := seq(n + 1, k requires 0 <= k <= n => BindTo(parse, byId, required, ids, k));
  }

  lemma NextInTrace(parse: string -> Url, byId: map<string, Artifact>, required: map<(string, string), Required>, ids: seq<string>,
                    trace: seq<Bindings>, k: nat)
    requires k < |ids| && |trace| == |ids| + 1
    requires trace[k] == BindTo(parse, byId, required, ids, k) && trace[k + 1] == BindTo(parse, byId, required, ids, k + 1)
    ensures IsNext(parse, byId, required, ids[k], trace[k], trace[k + 1])
  {
    BindToNext(parse, byId, required, ids, k);
  }

  lemma BindToNext(parse: string -> Url, byId: map<string, Artifact>, required: map<(string, string), Required>, ids: seq<string>, k: nat)
    requires k < |ids|
    ensures IsNext(parse, byId, required, ids[k], BindTo(parse, byId, required, ids, k), BindTo(parse, byId, required, ids, k + 1))
  {
  }

  lemma {:induction false} CleanTrace(parse: string -> Url, byId: map<string, Artifact>, required: map<(string, string), Required>,
                                      ids: seq<string>, trace: seq<Bindings>, k: nat)
    requires k <= |ids| && |trace| == |ids| + 1 && trace[0] == Bindings([], [])
    requires forall i | 0 <= i < |ids| :: IsNext(parse, byId, required, ids[i], trace[i], trace[i + 1])
    ensures CleanSoFar(parse, byId, required, ids, k, trace[k])
  {
    if k > 0 {
      var i := k - 1;
      CleanTrace(parse, byId, required, ids, trace, i);
      CleanNext(parse, byId, required, ids, i, trace[i], trace[i + 1]);
    }
  }

  /** One turn of the binding loop. */
  ghost predicate IsNext(parse: string -> Url, byId: map<string, Artifact>, required: map<(string, string), Required>, id: string,
                         b: Bindings, next: Bindings)
  {
    && next.resolved == b.resolved + StepEntries(parse, byId, required, KeysOf(b.resolved), id)
    && next.issues == b.issues + StepIssues(parse, byId, required, KeysOf(b.resolved), id)
  }

  /** The loop has raised no issue exactly if the first `k` bindings are clean, and then has an entry for each. */
  ghost predicate CleanSoFar(parse: string -> Url, byId: map<string, Artifact>, required: map<(string, string), Required>,
                             ids: seq<string>, k: nat, b: Bindings)
    requires k <= |ids|
  {
    && (b.issues == [] <==> CleanTo(parse, byId, required, ids, k))
    && (b.issues == [] ==> AllEntries(parse, byId, ids, k, b.resolved))
  }

  lemma CleanNext(parse: string -> Url, byId: map<string, Artifact>, required: map<(string, string), Required>, ids: seq<string>, k: nat,
                  b: Bindings, next: Bindings)
    requires k < |ids| && CleanSoFar(parse, byId, required, ids, k, b)
    requires IsNext(parse, byId, required, ids[k], b, next)
    ensures CleanSoFar(parse, byId, required, ids, k + 1, next)
  {
    if b.issues == [] {
      var keys := KeysOf(b.resolved);
      SilentStep(parse, byId, required, keys, ids[k]);
      CleanStep(parse, byId, required, ids, k, b.resolved,
                StepIssues(parse, byId, required, keys, ids[k]) == [], StepEntries(parse, byId, required, keys, ids[k]));
    } else {
      CleanPrefix(parse, byId, required, ids, k);
    }
  }

  lemma CleanPrefix(parse: string -> Url, byId: map<string, Artifact>, required: map<(string, string), Required>, ids: seq<string>, k: nat)
    requires k < |ids|
    ensures CleanTo(parse, byId, required, ids, k + 1) ==> CleanTo(parse, byId, required, ids, k)
  {
  }

  lemma SilentStep(parse: string -> Url, byId: map<string, Artifact>, required: map<(string, string), Required>, keys: set<KeyTuple>, id: string)
    ensures StepIssues(parse, byId, required, keys, id) == [] <==>
            Bindable(parse, byId, required, id) && KeyTupleById(byId, id) !in keys
    ensures StepIssues(parse, byId, required, keys, id) == [] ==>
            StepEntries(parse, byId, required, keys, id) == [ItemOf(parse, byId[id], id)]
  {
  }

  lemma KeyIsNew(parse: string -> Url, byId: map<string, Artifact>, ids: seq<string>, k: nat, resolved: seq<Item>, key: KeyTuple)
    requires k <= |ids| && AllEntries(parse, byId, ids, k, resolved)
    ensures key !in KeysOf(resolved) <==> forall i | 0 <= i < k :: KeyTupleById(byId, ids[i]) != key
  {
    assert forall i | 0 <= i < k :: KeyTupleOf(resolved[i]) in KeysOf(resolved) && KeyTupleOf(resolved[i]) == KeyTupleById(byId, ids[i]);
  }

  /** One more binding after a clean prefix. */
  lemma CleanStep(parse: string -> Url, byId: map<string, Artifact>, required: map<(string, string), Required>, ids: seq<string>, k: nat,
                  resolved: seq<Item>, silent: bool, entries: seq<Item>)
    requires k < |ids| && CleanTo(parse, byId, required, ids, k) && AllEntries(parse, byId, ids, k, resolved)
    requires silent <==> Bindable(parse, byId, required, ids[k]) && KeyTupleById(byId, ids[k]) !in KeysOf(resolved)
    requires silent ==> entries == [ItemOf(parse, byId[ids[k]], ids[k])]
    ensures silent <==> CleanTo(parse, byId, required, ids, k + 1)
    ensures silent ==> AllEntries(parse, byId, ids, k + 1, resolved + entries)
  {
    if Bindable(parse, byId, required, ids[k]) {
      KeyIsNew(parse, byId, ids, k, resolved, KeyTupleById(byId, ids[k]));
    }
  }

  // ---- The other loops --------------------------------------------------------------------

  lemma {:induction false} CoverageIssuesEmpty(required: seq<Required>, resolved: seq<Item>)
    ensures CoverageIssues(required, resolved) == [] <==> forall r | r in required :: Covered(resolved, r.component, r.name)
  {
    if required != [] {
      var front, last := required[..|required| - 1], required[|required| - 1];
      CoverageIssuesEmpty(front, resolved);
      assert required == front + [last];
    }
  }

  lemma {:induction false} EdgeIssuesOfEmpty(item: Item, bound: set<string>, k: nat)
    requires k <= |item.dependsOn|
    ensures EdgeIssuesOf(item, bound, k) == [] <==> forall j | 0 <= j < k :: item.dependsOn[j] != item.id && item.dependsOn[j] in bound
  {
    if k > 0 {
      EdgeIssuesOfEmpty(item, bound, k - 1);
    }
  }

  ghost predicate EdgesInside(item: Item, bound: set<string>) {
    forall d | d in item.dependsOn :: d != item.id && d in bound
  }

  lemma {:induction false} EdgeIssuesEmpty(resolved: seq<Item>, bound: set<string>, k: nat)
    requires k <= |resolved|
    ensures EdgeIssues(resolved, bound, k) == [] <==> forall i | 0 <= i < k :: EdgesInside(resolved[i], bound)
  {
    if k > 0 {
      EdgeIssuesEmpty(resolved, bound, k - 1);
      EdgeIssuesOfEmpty(resolved[k - 1], bound, |resolved[k - 1].dependsOn|);
    }
  }

  lemma {:induction false} ItemsByIdAre(resolved: seq<Item>)
    requires forall i, j | 0 <= i < j < |resolved| :: resolved[i].id != resolved[j].id
    ensures forall i | 0 <= i < |resolved| :: resolved[i].id in ItemsById(resolved) && ItemsById(resolved)[resolved[i].id] == resolved[i]
    ensures forall id | id in ItemsById(resolved) :: exists i :: 0 <= i < |resolved| && resolved[i].id == id
  {
    if resolved != [] {
      ItemsByIdAre(resolved[..|resolved| - 1]);
    }
  }

  lemma CleanItems(parse: string -> Url, byId: map<string, Artifact>, ids: seq<string>, resolved: seq<Item>)
    requires AllEntries(parse, byId, ids, |ids|, resolved) && Distinct(ids)
    ensures ItemsById(resolved) == BoundItems(parse, byId, Elems(ids)) && ItemsById(resolved).Keys == Elems(ids)
  {
    ItemsByIdAre(resolved);
    forall id
      ensures id in ItemsById(resolved) <==> id in Elems(ids)
      ensures id in Elems(ids) ==> id in byId && ItemsById(resolved)[id] == ItemOf(parse, byId[id], id)
    {
      CleanItem(parse, byId, ids, resolved, ItemsById(resolved), id);
    }
  }

  lemma CleanItem(parse: string -> Url, byId: map<string, Artifact>, ids: seq<string>, resolved: seq<Item>, items: map<string, Item>, id: string)
    requires AllEntries(parse, byId, ids, |ids|, resolved)
    requires forall i | 0 <= i < |resolved| :: resolved[i].id in items && items[resolved[i].id] == resolved[i]
    requires forall x | x in items :: exists i :: 0 <= i < |resolved| && resolved[i].id == x
    ensures id in items <==> id in Elems(ids)
    ensures id in Elems(ids) ==> id in byId && items[id] == ItemOf(parse, byId[id], id)
  {
    if id in items {
      var i :| 0 <= i < |resolved| && resolved[i].id == id;
      assert ids[i] == id;
    }
    if id in Elems(ids) {
      var i :| 0 <= i < |ids| && ids[i] == id;
      assert resolved[i].id == id;
    }
  }

  // ---- READY is sound and complete ---------------------------------------------------------

  /** The binding, coverage, edge and cycle checks together amount to `Complete`. */
  lemma SilentIffComplete(parse: string -> Url, byId: map<string, Artifact>, required: seq<Required>, ids: seq<string>)
    ensures var b := BindTo(parse, byId, RequiredMap(required), ids, |ids|);
            LocalIssues(ids, required, b) + CycleIssue(ItemsById(b.resolved)) == [] <==>
              Distinct(ids) && Complete(parse, byId, required, Elems(ids))
  {
    LocalIffWellBound(parse, byId, required, ids);
    if Distinct(ids) && WellBound(parse, byId, required, Elems(ids)) {
      WellBoundEntries(parse, byId, required, ids);
      SilentIffAcyclic(BoundItems(parse, byId, Elems(ids)));
    }
  }

  lemma SilentIffAcyclic(items: map<string, Item>)
    ensures CycleIssue(items) == [] <==> !exists c :: OnCycle(GraphOf(items), c)
  {
    OrderableIffAcyclic(GraphOf(items));
  }

  /** The entries of a well bound set are its artifacts. */
  lemma WellBoundEntries(parse: string -> Url, byId: map<string, Artifact>, required: seq<Required>, ids: seq<string>)
    requires Distinct(ids) && WellBound(parse, byId, required, Elems(ids))
    ensures var b := BindTo(parse, byId, RequiredMap(required), ids, |ids|);
            ItemsById(b.resolved) == BoundItems(parse, byId, Elems(ids)) && LocalIssues(ids, required, b) == []
  {
    LocalIffWellBound(parse, byId, required, ids);
    NoLocalIssues(ids, required, BindTo(parse, byId, RequiredMap(required), ids, |ids|));
    CleanBindings(parse, byId, RequiredMap(required), ids);
    CleanItems(parse, byId, ids, BindTo(parse, byId, RequiredMap(required), ids, |ids|).resolved);
  }

  /** After a clean binding loop, the remaining checks say what `Complete` says. */
  lemma CleanThenReady(parse: string -> Url, byId: map<string, Artifact>, required: seq<Required>, ids: seq<string>, resolved: seq<Item>)
    requires AllEntries(parse, byId, ids, |ids|, resolved) && Distinct(ids)
    ensures CoverageIssues(required, resolved) == [] <==> forall r | r in required :: exists id :: id in Elems(ids) && Covers(byId, id, r)
    ensures EdgeIssues(resolved, ItemsById(resolved).Keys, |resolved|) == [] <==>
            forall id | id in Elems(ids) :: id in byId && forall d | d in DependenciesOf(byId, id) :: d != id && d in Elems(ids)
    ensures Stuck(GraphOf(ItemsById(resolved))) == {} <==> !exists c :: OnCycle(GraphOf(BoundItems(parse, byId, Elems(ids))), c)
  {
    CleanItems(parse, byId, ids, resolved);
    CoverageIssuesEmpty(required, resolved);
    CoverageMeaning(parse, byId, required, ids, resolved);
    EdgeIssuesEmpty(resolved, Elems(ids), |resolved|);
    EdgesMeaning(parse, byId, ids, resolved);
    OrderableIffAcyclic(GraphOf(BoundItems(parse, byId, Elems(ids))));
  }

  lemma NoLocalIssues(ids: seq<string>, required: seq<Required>, b: Bindings)
    ensures LocalIssues(ids, required, b) == [] <==>
              && Distinct(ids) && b.issues == [] && CoverageIssues(required, b.resolved) == []
              && EdgeIssues(b.resolved, ItemsById(b.resolved).Keys, |b.resolved|) == []
  {
  }

  lemma CleanWellBound(parse: string -> Url, byId: map<string, Artifact>, required: seq<Required>, ids: seq<string>, resolved: seq<Item>)
    requires AllEntries(parse, byId, ids, |ids|, resolved) && Distinct(ids) && CleanTo(parse, byId, RequiredMap(required), ids, |ids|)
    ensures CoverageIssues(required, resolved) == [] && EdgeIssues(resolved, ItemsById(resolved).Keys, |resolved|) == [] <==>
            WellBound(parse, byId, required, Elems(ids))
  {
    CleanMeaning(parse, byId, RequiredMap(required), ids);
    CleanThenReady(parse, byId, required, ids, resolved);
  }

  /** Leaving the cycle report aside, there is no issue exactly of a duplicate-free binding that is well bound. */
  lemma LocalIffWellBound(parse: string -> Url, byId: map<string, Artifact>, required: seq<Required>, ids: seq<string>)
    ensures LocalIssues(ids, required, BindTo(parse, byId, RequiredMap(required), ids, |ids|)) == [] <==>
            Distinct(ids) && WellBound(parse, byId, required, Elems(ids))
  {
    var b := BindTo(parse, byId, RequiredMap(required), ids, |ids|);
    NoLocalIssues(ids, required, b);
    CleanBindings(parse, byId, RequiredMap(required), ids);
    if Distinct(ids) && b.issues == [] {
      CleanWellBound(parse, byId, required, ids, b.resolved);
    } else if Distinct(ids) {
      CleanMeaning(parse, byId, RequiredMap(required), ids);
    }
  }

  lemma CoverageMeaning(parse: string -> Url, byId: map<string, Artifact>, required: seq<Required>, ids: seq<string>, resolved: seq<Item>)
    requires AllEntries(parse, byId, ids, |ids|, resolved)
    ensures (forall r | r in required :: Covered(resolved, r.component, r.name))
            <==> (forall r | r in required :: exists id :: id in Elems(ids) && Covers(byId, id, r))
  {
    forall r | r in required
      ensures Covered(resolved, r.component, r.name) <==> exists id :: id in Elems(ids) && Covers(byId, id, r)
    {
      if Covered(resolved, r.component, r.name) {
        var i :| 0 <= i < |resolved| && resolved[i].component == r.component && resolved[i].name == r.name;
        assert ids[i] in Elems(ids) && Covers(byId, ids[i], r);
      }
      if id :| id in Elems(ids) && Covers(byId, id, r) {
        var i :| 0 <= i < |ids| && ids[i] == id;
        assert resolved[i].component == r.component && resolved[i].name == r.name;
      }
    }
  }

  lemma EdgesMeaning(parse: string -> Url, byId: map<string, Artifact>, ids: seq<string>, resolved: seq<Item>)
    requires AllEntries(parse, byId, ids, |ids|, resolved)
    ensures (forall i | 0 <= i < |resolved| :: EdgesInside(resolved[i], Elems(ids)))
            <==> forall id | id in Elems(ids) :: id in byId && forall d | d in DependenciesOf(byId, id) :: d != id && d in Elems(ids)
  {
    if forall i | 0 <= i < |resolved| :: EdgesInside(resolved[i], Elems(ids)) {
      forall id | id in Elems(ids)
        ensures id in byId && forall d | d in DependenciesOf(byId, id) :: d != id && d in Elems(ids)
      {
        var i :| 0 <= i < |ids| && ids[i] == id;
        assert EdgesInside(resolved[i], Elems(ids));
      }
    }
    if forall id | id in Elems(ids) :: id in byId && forall d | d in DependenciesOf(byId, id) :: d != id && d in Elems(ids) {
      forall i | 0 <= i < |resolved|
        ensures EdgesInside(resolved[i], Elems(ids))
      {
        assert ids[i] in Elems(ids);
      }
    }
  }

  lemma CleanMeaning(parse: string -> Url, byId: map<string, Artifact>, required: map<(string, string), Required>, ids: seq<string>)
    requires Distinct(ids)
    ensures CleanTo(parse, byId, required, ids, |ids|) <==>
            && (forall id | id in Elems(ids) :: Bindable(parse, byId, required, id))
            && (forall a, b | a in Elems(ids) && b in Elems(ids) && a != b :: KeyTupleById(byId, a) != KeyTupleById(byId, b))
  {
    assert forall i | 0 <= i < |ids| :: ids[i] in Elems(ids);
  }

  /** READY holds exactly of a duplicate-free binding that is complete in the declarative sense. */
  lemma ReadyIffComplete(parse: string -> Url, digest: ManifestBody -> string, bp: ClusterBlueprint, artifacts: seq<Artifact>)
    ensures Resolve(parse, digest, bp, artifacts).body.state == READY <==>
            && Distinct(bp.artifactDependencies)
            && Complete(parse, ArtifactsById(artifacts), RequiredComponents(bp), Elems(bp.artifactDependencies))
  {
    SilentIffComplete(parse, ArtifactsById(artifacts), RequiredComponents(bp), bp.artifactDependencies);
  }

  /** The entries of a READY manifest: the bound artifacts, in the published order of their graph. */
  lemma ReadyOrder(parse: string -> Url, digest: ManifestBody -> string, bp: ClusterBlueprint, artifacts: seq<Artifact>)
    requires Resolve(parse, digest, bp, artifacts).body.state == READY
    ensures var items := BoundItems(parse, ArtifactsById(artifacts), Elems(bp.artifactDependencies));
            && Stuck(GraphOf(items)) == {}
            && items.Keys == Elems(bp.artifactDependencies)
            && (forall i | 0 <= i < |PublishedOrder(GraphOf(items))| :: PublishedOrder(GraphOf(items))[i] in items)
            && Resolve(parse, digest, bp, artifacts).body.dependencyOrder == Entries(items, PublishedOrder(GraphOf(items)))
  {
    var ids, byId, required := bp.artifactDependencies, ArtifactsById(artifacts), RequiredComponents(bp);
    var b := BindingsOf(parse, bp, artifacts);
    assert IssuesOf(bp, b) == [];
    CleanBindings(parse, byId, RequiredMap(required), ids);
    CleanItems(parse, byId, ids, b.resolved);
    PublishedOrderIn(GraphOf(ItemsById(b.resolved)));
  }

  // ---- The published order of any manifest --------------------------------------------------

  ghost function IdsOf(order: seq<Item>): (ids: seq<string>)
    ensures |ids| == |order| && forall i | 0 <= i < |order| :: ids[i] == order[i].id
  {
    seq(|order|, i requires 0 <= i < |order| => order[i].id)
  }

  /** The dependency graph of the entries a resolution admits. */
  ghost function ManifestGraph(parse: string -> Url, bp: ClusterBlueprint, artifacts: seq<Artifact>): Graph {
    GraphOf(ItemsById(BindingsOf(parse, bp, artifacts).resolved))
  }

  lemma {:induction false} ItemsByIdKeyed(resolved: seq<Item>)
    ensures forall id | id in ItemsById(resolved) :: ItemsById(resolved)[id].id == id && ItemsById(resolved)[id] in resolved
  {
    if resolved != [] {
      ItemsByIdKeyed(resolved[..|resolved| - 1]);
    }
  }

  lemma OrderIds(parse: string -> Url, digest: ManifestBody -> string, bp: ClusterBlueprint, artifacts: seq<Artifact>)
    ensures IdsOf(Resolve(parse, digest, bp, artifacts).body.dependencyOrder) == PublishedOrder(ManifestGraph(parse, bp, artifacts))
  {
    var b := BindingsOf(parse, bp, artifacts);
    ItemsByIdKeyed(b.resolved);
    PublishedOrderIn(GraphOf(ItemsById(b.resolved)));
  }

  lemma {:induction false} EdgeIssuesNameEntries(resolved: seq<Item>, bound: set<string>, k: nat)
    requires k <= |resolved|
    ensures forall issue | issue in EdgeIssues(resolved, bound, k) :: issue.SelfCycle? || issue.UnboundEdge?
  {
    if k > 0 {
      EdgeIssuesNameEntries(resolved, bound, k - 1);
      EdgeIssuesOfKind(resolved[k - 1], bound, |resolved[k - 1].dependsOn|);
    }
  }

  lemma {:induction false} EdgeIssuesOfKind(item: Item, bound: set<string>, k: nat)
    requires k <= |item.dependsOn|
    ensures forall issue | issue in EdgeIssuesOf(item, bound, k) :: (issue.SelfCycle? || issue.UnboundEdge?) && issue.id == item.id
  {
    if k > 0 {
      EdgeIssuesOfKind(item, bound, k - 1);
    }
  }

  predicate NoCycleIn(issues: seq<Issue>) {
    forall i | 0 <= i < |issues| :: !issues[i].DependencyCycle?
  }

  lemma {:induction false} LocalTrace(parse: string -> Url, byId: map<string, Artifact>, required: map<(string, string), Required>,
                                      ids: seq<string>, trace: seq<Bindings>, k: nat)
    requires k <= |ids| && |trace| == |ids| + 1 && trace[0] == Bindings([], [])
    requires forall i | 0 <= i < |ids| :: IsNext(parse, byId, required, ids[i], trace[i], trace[i + 1])
    ensures NoCycleIn(trace[k].issues)
  {
    if k > 0 {
      LocalTrace(parse, byId, required, ids, trace, k - 1);
      LocalNext(parse, byId, required, ids[k - 1], trace[k - 1], trace[k]);
    }
  }

  lemma LocalNext(parse: string -> Url, byId: map<string, Artifact>, required: map<(string, string), Required>, id: string, b: Bindings, next: Bindings)
    requires NoCycleIn(b.issues) && IsNext(parse, byId, required, id, b, next)
    ensures NoCycleIn(next.issues)
  {
  }

  lemma BindingIssuesAreLocal(parse: string -> Url, byId: map<string, Artifact>, required: map<(string, string), Required>, ids: seq<string>)
    ensures forall issue | issue in BindTo(parse, byId, required, ids, |ids|).issues :: !issue.DependencyCycle?
  {
    var trace := BindTrace(parse, byId, required, ids);
    LocalTrace(parse, byId, required, ids, trace, |ids|);
  }

  lemma LocalIssuesAreLocal(bound: seq<string>, required: seq<Required>, b: Bindings)
    requires forall issue | issue in b.issues :: !issue.DependencyCycle?
    ensures forall issue | issue in LocalIssues(bound, required, b) :: !issue.DependencyCycle?
  {
    EdgeIssuesNameEntries(b.resolved, ItemsById(b.resolved).Keys, |b.resolved|);
  }

  lemma CycleReportIs(local: seq<Issue>, items: map<string, Item>, ids: seq<string>)
    requires forall issue | issue in local :: !issue.DependencyCycle?
    ensures DependencyCycle(ids) in local + CycleIssue(items) <==>
            Stuck(GraphOf(items)) != {} && ids == PlainOrder(Stuck(GraphOf(items)))
  {
  }

  lemma StuckListed(g: Graph, ids: seq<string>)
    ensures ids == PlainOrder(Stuck(g)) <==> Increasing(StrLess, ids) && forall x :: x in ids <==> DependsOnCycle(g, x)
  {
    forall x
      ensures x in Stuck(g) <==> DependsOnCycle(g, x)
    {
      StuckIffDependsOnCycle(g, x);
    }
    PlainOrderListed(Stuck(g));
    if Increasing(StrLess, ids) && (forall x :: x in ids <==> DependsOnCycle(g, x)) {
      assert forall x :: x in Elems(ids) <==> x in Stuck(g);
      PlainOrderIs(Stuck(g), ids);
    }
  }

  /** Exactly the artifacts on, or depending on, a cycle are reported; there is a report exactly when there is a cycle. */
  lemma CycleReport(parse: string -> Url, digest: ManifestBody -> string, bp: ClusterBlueprint, artifacts: seq<Artifact>, ids: seq<string>)
    ensures var g := ManifestGraph(parse, bp, artifacts);
            DependencyCycle(ids) in Resolve(parse, digest, bp, artifacts).body.issues <==>
              && (exists c :: OnCycle(g, c))
              && Increasing(StrLess, ids)
              && (forall x :: x in ids <==> DependsOnCycle(g, x))
  {
    var b, g := BindingsOf(parse, bp, artifacts), ManifestGraph(parse, bp, artifacts);
    var required := RequiredComponents(bp);
    BindingIssuesAreLocal(parse, ArtifactsById(artifacts), RequiredMap(required), bp.artifactDependencies);
    LocalIssuesAreLocal(bp.artifactDependencies, required, b);
    CycleReportIs(LocalIssues(bp.artifactDependencies, required, b), ItemsById(b.resolved), ids);
    OrderableIffAcyclic(g);
    StuckListed(g, ids);
  }

  lemma PlainOrderListed(s: set<string>)
    ensures Increasing(StrLess, PlainOrder(s))
    ensures forall x :: x in PlainOrder(s) <==> x in s
  {
    InKeyOrderIncreasing(map[], s);
    assert forall a, b :: Less(map[])(a, b) == StrLess(a, b);
    assert Elems(PlainOrder(s)) == s;
  }

  /**
    Every admitted artifact appears once in the order, whatever the bindings repeat; without a
    cycle the order is topological and comes no later, by the sort key, than any other such order.
   */
  lemma ManifestOrder(parse: string -> Url, digest: ManifestBody -> string, bp: ClusterBlueprint, artifacts: seq<Artifact>, other: seq<string>)
    ensures var g, ids := ManifestGraph(parse, bp, artifacts), IdsOf(Resolve(parse, digest, bp, artifacts).body.dependencyOrder);
            && Distinct(ids) && Elems(ids) == g.Keys
            && ((exists c :: OnCycle(g, c)) || (Topological(g, ids) && (Topological(g, other) ==> NoLater(g, ids, other))))
  {
    var g := ManifestGraph(parse, bp, artifacts);
    OrderIds(parse, digest, bp, artifacts);
    OrderIsPermutation(g);
    OrderableIffAcyclic(g);
    if Stuck(g) == {} {
      OrderIsLeastTopological(g, other);
    }
  }

  // ---- What comes before what ---------------------------------------------------------------------

  /** The provider comes first, then Kubernetes, then add-ons. */
  function Position(component: string): nat {
    if component == "provider" then 0 else if component == "kubernetes" then 1 else if component == "addon" then 2 else 3
  }

  /** By component, then by name, by dependency key and by id, each in code-point order. */
  ghost predicate Precedes(x: Item, y: Item) {
    || Position(x.component) < Position(y.component)
    || (Position(x.component) == Position(y.component) && ComesFirst(x.name, y.name))
    || (Position(x.component) == Position(y.component) && x.name == y.name && ComesFirst(x.dependencyKey, y.dependencyKey))
    || (Position(x.component) == Position(y.component) && x.name == y.name && x.dependencyKey == y.dependencyKey && ComesFirst(x.id, y.id))
  }

  lemma RanksOrder(x: string, y: string)
    ensures StrLess(ComponentRank(x), ComponentRank(y)) <==> Position(x) < Position(y)
    ensures ComponentRank(x) == ComponentRank(y) <==> Position(x) == Position(y)
  {
  }

  lemma BeforePrecedes(items: map<string, Item>, x: string, y: string)
    requires x in items && y in items && items[x].id == x && items[y].id == y && Before(GraphOf(items), x, y)
    ensures Precedes(items[x], items[y])
  {
    RanksOrder(items[x].component, items[y].component);
    StrLessIff(items[x].name, items[y].name);
    StrLessIff(items[x].dependencyKey, items[y].dependencyKey);
    StrLessIff(x, y);
  }

  lemma EntriesPrecede(items: map<string, Item>, j: nat, k: nat)
    requires Stuck(GraphOf(items)) == {} && forall id | id in items :: items[id].id == id
    requires forall i | 0 <= i < |PublishedOrder(GraphOf(items))| :: PublishedOrder(GraphOf(items))[i] in items
    requires j < k < |PublishedOrder(GraphOf(items))|
    requires var order := Entries(items, PublishedOrder(GraphOf(items)));
             forall d | d in order[k].dependsOn :: exists i :: 0 <= i < j && order[i].id == d
    ensures var order := Entries(items, PublishedOrder(GraphOf(items))); Precedes(order[j], order[k])
  {
    var g := GraphOf(items);
    var ids := PublishedOrder(g);
    assert InKeyOrder(g, Stuck(g)) == [];
    assert ids == Greedy(g, {});
    forall d | d in Deps(g, ids[k])
      ensures d in Elems(ids[..j])
    {
      var i :| 0 <= i < j && Entries(items, ids)[i].id == d;
      assert ids[..j][i] == d;
    }
    GreedyTurn(g, {}, j, k);
    BeforePrecedes(items, ids[j], ids[k]);
  }

  /**
    In a READY manifest an entry precedes every later one whose dependencies were all listed before it: by component,
    name, dependency key and id.
   */
  lemma ReadyEntriesPrecede(parse: string -> Url, digest: ManifestBody -> string, bp: ClusterBlueprint, artifacts: seq<Artifact>, j: nat, k: nat)
    requires Resolve(parse, digest, bp, artifacts).body.state == READY
    requires j < k < |Resolve(parse, digest, bp, artifacts).body.dependencyOrder|
    requires var order := Resolve(parse, digest, bp, artifacts).body.dependencyOrder;
             forall d | d in order[k].dependsOn :: exists i :: 0 <= i < j && order[i].id == d
    ensures var order := Resolve(parse, digest, bp, artifacts).body.dependencyOrder; Precedes(order[j], order[k])
  {
    ReadyOrder(parse, digest, bp, artifacts);
    EntriesPrecede(BoundItems(parse, ArtifactsById(artifacts), Elems(bp.artifactDependencies)), j, k);
  }

  // ---- Independence of list order ---------------------------------------------------------

  lemma {:induction false} ArtifactsByIdAre(artifacts: seq<Artifact>)
    requires forall i, j | 0 <= i < j < |artifacts| :: artifacts[i].id != artifacts[j].id
    ensures forall i | 0 <= i < |artifacts| :: artifacts[i].id in ArtifactsById(artifacts) && ArtifactsById(artifacts)[artifacts[i].id] == artifacts[i]
    ensures forall id | id in ArtifactsById(artifacts) :: exists i :: 0 <= i < |artifacts| && artifacts[i].id == id
  {
    if artifacts != [] {
      ArtifactsByIdAre(artifacts[..|artifacts| - 1]);
    }
  }

  lemma ArtifactFound(a: seq<Artifact>, b: seq<Artifact>, id: string)
    requires forall i, j | 0 <= i < j < |a| :: a[i].id != a[j].id
    requires forall i, j | 0 <= i < j < |b| :: b[i].id != b[j].id
    requires (forall x | x in a :: x in b) && id in ArtifactsById(a)
    ensures id in ArtifactsById(b) && ArtifactsById(b)[id] == ArtifactsById(a)[id]
  {
    ArtifactsByIdAre(a);
    ArtifactsByIdAre(b);
    var i :| 0 <= i < |a| && a[i].id == id;
    assert a[i] in b;
    var j :| 0 <= j < |b| && b[j] == a[i];
  }

  lemma ArtifactListOrderIrrelevant(a: seq<Artifact>, b: seq<Artifact>)
    requires forall i, j | 0 <= i < j < |a| :: a[i].id != a[j].id
    requires forall i, j | 0 <= i < j < |b| :: b[i].id != b[j].id
    requires multiset(a) == multiset(b)
    ensures ArtifactsById(a) == ArtifactsById(b)
  {
    assert forall x :: x in a <==> x in multiset(a);
    assert forall x :: x in b <==> x in multiset(b);
    forall id
      ensures id in ArtifactsById(a) <==> id in ArtifactsById(b)
      ensures id in ArtifactsById(a) ==> ArtifactsById(a)[id] == ArtifactsById(b)[id]
    {
      if id in ArtifactsById(a) {
        ArtifactFound(a, b, id);
      }
      if id in ArtifactsById(b) {
        ArtifactFound(b, a, id);
      }
    }
  }

  lemma RequiredIgnoresBindings(bp: ClusterBlueprint, bound: seq<string>)
    ensures RequiredComponents(bp) == RequiredComponents(bp.(artifactDependencies := bound))
  {
    assert RequestedAddons(bp) == RequestedAddons(bp.(artifactDependencies := bound));
  }

  /** Permuting the bindings or the artifact list changes neither the state nor a READY order. */
  lemma PermutationInvariant(parse: string -> Url, digest: ManifestBody -> string, bp: ClusterBlueprint, bound: seq<string>, a: seq<Artifact>, b: seq<Artifact>)
    requires multiset(bound) == multiset(bp.artifactDependencies)
    requires forall i, j | 0 <= i < j < |a| :: a[i].id != a[j].id
    requires forall i, j | 0 <= i < j < |b| :: b[i].id != b[j].id
    requires multiset(a) == multiset(b)
    ensures var m := Resolve(parse, digest, bp, a).body;
            var n := Resolve(parse, digest, bp.(artifactDependencies := bound), b).body;
            m.state == n.state && (m.state == READY ==> m.dependencyOrder == n.dependencyOrder)
  {
    var bq := bp.(artifactDependencies := bound);
    ArtifactListOrderIrrelevant(a, b);
    RequiredIgnoresBindings(bp, bound);
    SameBindings(bp.artifactDependencies, bound);
    ReadyIffComplete(parse, digest, bp, a);
    ReadyIffComplete(parse, digest, bq, b);
    if Resolve(parse, digest, bp, a).body.state == READY {
      ReadyOrder(parse, digest, bp, a);
      ReadyOrder(parse, digest, bq, b);
    }
  }

  lemma SameBindings(s: seq<string>, t: seq<string>)
    requires multiset(s) == multiset(t)
    ensures Distinct(s) <==> Distinct(t)
    ensures Elems(s) == Elems(t)
  {
    DistinctIffCountOne(s);
    DistinctIffCountOne(t);
    assert forall x :: x in s <==> x in multiset(s);
    assert forall x :: x in t <==> x in multiset(t);
  }
}
