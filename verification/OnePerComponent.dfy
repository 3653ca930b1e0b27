/**
  Blueprints with one mirrored artifact bound for each required component: what becomes of the manifest if the first two
  artifacts depend on each other, and what the supply check makes of their digests.
 */
module OnePerComponent {
  import opened Ordering
  import opened Kahn
  import opened DependencyOrder
  import opened Blueprint
  import opened ReadyManifest
  import opened Resume
  import opened OfflineSupply
  import opened Wrappers
  import Text

  /** A mirrored artifact for this component. */
  function Part(id: string, r: Required, dependencies: seq<string>, pin: string, destination: string): Artifact {
    Artifact(id, "oci-image", r.version, pin, destination,
             map[COMPONENT_LABEL := r.component, NAME_LABEL := r.name, KEY_LABEL := id, DEPENDS_ON_LABEL := Text.JoinComma(dependencies)],
             Some(Verification("PASS", "MIRRORED", None, None)))
  }

  /** One for each component. */
  function Parts(required: seq<Required>, ids: seq<string>, dependencies: seq<seq<string>>, pin: string, destination: string): seq<Artifact>
    requires |required| == |ids| == |dependencies|
  {
    seq(|ids|, n requires 0 <= n < |ids| => Part(ids[n], required[n], dependencies[n], pin, destination))
  }

  predicate GoodId(id: string) {
    0 < |id| <= 120 && Text.Trimmed(id) && ',' !in id
  }

  /** As many ids as components, all different, that a `depends_on` label can list. */
  ghost predicate BindsOneEach(bp: ClusterBlueprint) {
    && |bp.artifactDependencies| == |RequiredComponents(bp)| && Distinct(bp.artifactDependencies)
    && forall id | id in bp.artifactDependencies :: GoodId(id)
  }

  ghost predicate Inside(ids: seq<string>, dependencies: seq<seq<string>>) {
    && |dependencies| == |ids|
    && forall n | 0 <= n < |ids| :: |dependencies[n]| <= 1 && forall d | d in dependencies[n] :: d in ids && d != ids[n]
  }

  // ---- The required components ---------------------------------------------------------------------------

  /** A component is required under one version only. */
  lemma OneVersion(bp: ClusterBlueprint, catalog: seq<string>, r: Required, x: Required)
    requires r in RequiredFrom(bp, catalog) && x in RequiredFrom(bp, catalog) && x.component == r.component && x.name == r.name
    ensures x == r
  {
    RequiredComponentsAre(bp, catalog, r);
    RequiredComponentsAre(bp, catalog, x);
  }

  lemma {:induction false} RequiredMapHolds(required: seq<Required>, r: Required)
    requires r in required && forall x | x in required && x.component == r.component && x.name == r.name :: x == r
    ensures (r.component, r.name) in RequiredMap(required) && RequiredMap(required)[(r.component, r.name)] == r
  {
    var front, last := required[..|required| - 1], required[|required| - 1];
    assert required == front + [last];
    if (last.component, last.name) == (r.component, r.name) {
      assert last in required;
    } else {
      assert forall x | x in front :: x in required;
      RequiredMapHolds(front, r);
    }
  }

  lemma MapHoldsRequired(bp: ClusterBlueprint, catalog: seq<string>, n: nat)
    requires n < |RequiredFrom(bp, catalog)|
    ensures var required := RequiredFrom(bp, catalog); var r := required[n];
            (r.component, r.name) in RequiredMap(required) && RequiredMap(required)[(r.component, r.name)] == r
  {
    var required := RequiredFrom(bp, catalog);
    forall x | x in required && x.component == required[n].component && x.name == required[n].name
      ensures x == required[n]
    {
      OneVersion(bp, catalog, required[n], x);
    }
    RequiredMapHolds(required, required[n]);
  }

  // ---- The artifacts ----------------------------------------------------------------------------------------

  lemma LabelsDiffer()
    ensures COMPONENT_LABEL != NAME_LABEL && COMPONENT_LABEL != KEY_LABEL && COMPONENT_LABEL != DEPENDS_ON_LABEL
    ensures NAME_LABEL != KEY_LABEL && NAME_LABEL != DEPENDS_ON_LABEL && KEY_LABEL != DEPENDS_ON_LABEL
  {
    assert |COMPONENT_LABEL| == 19 && |NAME_LABEL| == 14 && |KEY_LABEL| == 14 && |DEPENDS_ON_LABEL| == 10;
    assert NAME_LABEL[0] != KEY_LABEL[0];
  }

  /** An artifact as the resolver reads it: fit for this component, and with these dependencies. */
  ghost predicate FitsAs(parse: string -> Url, x: Artifact, id: string, r: Required, dependencies: seq<string>) {
    && Label(x, COMPONENT_LABEL) == r.component && Label(x, NAME_LABEL) == r.name && x.version == r.version
    && Label(x, KEY_LABEL) == id && OfflineReferenceOk(parse(x.destination)) && Mirrored(x)
    && Text.DependencyList(Label(x, DEPENDS_ON_LABEL)) == dependencies
  }

  lemma PartFits(parse: string -> Url, id: string, r: Required, dependencies: seq<string>, pin: string, destination: string)
    requires OfflineReferenceOk(parse(destination)) && forall d | d in dependencies :: GoodId(d)
    ensures FitsAs(parse, Part(id, r, dependencies, pin, destination), id, r, dependencies)
  {
    Text.DependencyListRoundTrip(dependencies);
    LabelsDiffer();
  }

  /** The artifacts by id, each fit for its component. */
  ghost predicate AllFit(parse: string -> Url, byId: map<string, Artifact>, required: seq<Required>, ids: seq<string>, dependencies: seq<seq<string>>) {
    && |required| == |ids| == |dependencies| && byId.Keys == Elems(ids)
    && forall n | 0 <= n < |ids| :: ids[n] in byId && FitsAs(parse, byId[ids[n]], ids[n], required[n], dependencies[n])
  }

  lemma PartById(required: seq<Required>, ids: seq<string>, dependencies: seq<seq<string>>, pin: string, destination: string)
    requires |required| == |ids| == |dependencies| && Distinct(ids)
    ensures var byId := ArtifactsById(Parts(required, ids, dependencies, pin, destination));
            && byId.Keys == Elems(ids)
            && forall n | 0 <= n < |ids| :: ids[n] in byId && byId[ids[n]] == Part(ids[n], required[n], dependencies[n], pin, destination)
  {
    var parts := Parts(required, ids, dependencies, pin, destination);
    ArtifactsByIdAre(parts);
    assert forall n | 0 <= n < |ids| :: parts[n].id == ids[n];
    assert forall id | id in ArtifactsById(parts) :: id in ids;
  }

  lemma PartsFit(parse: string -> Url, byId: map<string, Artifact>, required: seq<Required>, ids: seq<string>, dependencies: seq<seq<string>>,
                 pin: string, destination: string)
    requires |required| == |ids| && Inside(ids, dependencies) && OfflineReferenceOk(parse(destination)) && forall id | id in ids :: GoodId(id)
    requires byId.Keys == Elems(ids)
    requires forall n | 0 <= n < |ids| :: ids[n] in byId && byId[ids[n]] == Part(ids[n], required[n], dependencies[n], pin, destination)
    ensures AllFit(parse, byId, required, ids, dependencies)
  {
    forall n | 0 <= n < |ids|
      ensures FitsAs(parse, byId[ids[n]], ids[n], required[n], dependencies[n])
    {
      assert forall d | d in dependencies[n] :: d in ids;
      PartFits(parse, ids[n], required[n], dependencies[n], pin, destination);
    }
  }

  lemma FitIsBindable(parse: string -> Url, byId: map<string, Artifact>, required: map<(string, string), Required>, id: string, r: Required,
                      dependencies: seq<string>)
    requires id in byId && FitsAs(parse, byId[id], id, r, dependencies) && |dependencies| <= 1 && GoodId(id)
    requires (r.component, r.name) in required && required[(r.component, r.name)] == r
    ensures Bindable(parse, byId, required, id)
  {
  }

  ghost predicate HoldsAll(required: seq<Required>) {
    forall n | 0 <= n < |required| ::
      var key := (required[n].component, required[n].name); key in RequiredMap(required) && RequiredMap(required)[key] == required[n]
  }

  lemma FitsAreBindable(parse: string -> Url, byId: map<string, Artifact>, required: seq<Required>, ids: seq<string>, dependencies: seq<seq<string>>,
                        id: string)
    requires AllFit(parse, byId, required, ids, dependencies) && Inside(ids, dependencies) && HoldsAll(required) && id in ids && GoodId(id)
    ensures Bindable(parse, byId, RequiredMap(required), id) && KeyTupleById(byId, id).2 == id
    ensures forall d | d in DependenciesOf(byId, id) :: d != id && d in Elems(ids)
  {
    var n :| 0 <= n < |ids| && ids[n] == id;
    FitIsBindable(parse, byId, RequiredMap(required), id, required[n], dependencies[n]);
  }

  lemma FitsCover(parse: string -> Url, byId: map<string, Artifact>, required: seq<Required>, ids: seq<string>, dependencies: seq<seq<string>>, r: Required)
    requires AllFit(parse, byId, required, ids, dependencies) && r in required
    ensures exists id :: id in Elems(ids) && Covers(byId, id, r)
  {
    var n :| 0 <= n < |required| && required[n] == r;
    assert ids[n] in Elems(ids) && Covers(byId, ids[n], r);
  }

  lemma MakesWellBound(parse: string -> Url, byId: map<string, Artifact>, required: seq<Required>, bound: set<string>)
    requires forall id | id in bound :: Bindable(parse, byId, RequiredMap(required), id) && KeyTupleById(byId, id).2 == id
    requires forall id | id in bound :: id in byId && forall d | d in DependenciesOf(byId, id) :: d != id && d in bound
    requires forall r | r in required :: exists id :: id in bound && Covers(byId, id, r)
    ensures WellBound(parse, byId, required, bound)
  {
  }

  lemma FitsAreWellBound(parse: string -> Url, byId: map<string, Artifact>, required: seq<Required>, ids: seq<string>, dependencies: seq<seq<string>>)
    requires AllFit(parse, byId, required, ids, dependencies) && Inside(ids, dependencies) && HoldsAll(required) && forall id | id in ids :: GoodId(id)
    ensures WellBound(parse, byId, required, Elems(ids))
  {
    forall id | id in Elems(ids)
      ensures Bindable(parse, byId, RequiredMap(required), id) && KeyTupleById(byId, id).2 == id
      ensures forall d | d in DependenciesOf(byId, id) :: d != id && d in Elems(ids)
    {
      FitsAreBindable(parse, byId, required, ids, dependencies, id);
    }
    forall r | r in required
      ensures exists id :: id in Elems(ids) && Covers(byId, id, r)
    {
      FitsCover(parse, byId, required, ids, dependencies, r);
    }
    MakesWellBound(parse, byId, required, Elems(ids));
  }

  lemma FitGraph(parse: string -> Url, byId: map<string, Artifact>, required: seq<Required>, ids: seq<string>, dependencies: seq<seq<string>>)
    requires AllFit(parse, byId, required, ids, dependencies)
    ensures var g := GraphOf(BoundItems(parse, byId, Elems(ids)));
            g.Keys == Elems(ids) && forall n | 0 <= n < |ids| :: ids[n] in g && g[ids[n]].dependsOn == dependencies[n]
  {
    assert forall n | 0 <= n < |ids| :: ids[n] in Elems(ids) && ids[n] in byId;
  }

  lemma BlueprintHoldsAll(bp: ClusterBlueprint, catalog: seq<string>)
    ensures HoldsAll(RequiredFrom(bp, catalog))
  {
    forall n | 0 <= n < |RequiredFrom(bp, catalog)|
      ensures var required := RequiredFrom(bp, catalog); var key := (required[n].component, required[n].name);
              key in RequiredMap(required) && RequiredMap(required)[key] == required[n]
    {
      MapHoldsRequired(bp, catalog, n);
    }
  }

  /** What is bound is well bound, with the dependencies it declares and this digest. */
  ghost predicate BoundAs(parse: string -> Url, byId: map<string, Artifact>, required: seq<Required>, ids: seq<string>,
                          dependencies: seq<seq<string>>, pin: string) {
    && |dependencies| == |ids| && WellBound(parse, byId, required, Elems(ids))
    && (forall id | id in byId :: byId[id].digest == pin)
    && var g := GraphOf(BoundItems(parse, byId, Elems(ids)));
       g.Keys == Elems(ids) && forall n | 0 <= n < |ids| :: ids[n] in g && g[ids[n]].dependsOn == dependencies[n]
  }

  lemma PartsAreWellBound(parse: string -> Url, required: seq<Required>, ids: seq<string>, dependencies: seq<seq<string>>, pin: string, destination: string)
    requires |required| == |ids| && Distinct(ids) && Inside(ids, dependencies) && HoldsAll(required) && (forall id | id in ids :: GoodId(id))
    requires OfflineReferenceOk(parse(destination))
    ensures BoundAs(parse, ArtifactsById(Parts(required, ids, dependencies, pin, destination)), required, ids, dependencies, pin)
  {
    var byId := ArtifactsById(Parts(required, ids, dependencies, pin, destination));
    PartById(required, ids, dependencies, pin, destination);
    PartsFit(parse, byId, required, ids, dependencies, pin, destination);
    FitsAreWellBound(parse, byId, required, ids, dependencies);
    FitGraph(parse, byId, required, ids, dependencies);
    forall id | id in byId
      ensures byId[id].digest == pin
    {
      var n :| 0 <= n < |ids| && ids[n] == id;
    }
  }

  /** The artifacts of a blueprint, one for each required component. */
  function PartsOf(bp: ClusterBlueprint, dependencies: seq<seq<string>>, pin: string, destination: string): seq<Artifact>
    requires |RequiredComponents(bp)| == |bp.artifactDependencies| == |dependencies|
  {
    Parts(RequiredComponents(bp), bp.artifactDependencies, dependencies, pin, destination)
  }

  lemma BlueprintIsBound(parse: string -> Url, bp: ClusterBlueprint, dependencies: seq<seq<string>>, pin: string, destination: string)
    requires BindsOneEach(bp) && Inside(bp.artifactDependencies, dependencies) && OfflineReferenceOk(parse(destination))
    ensures BoundAs(parse, ArtifactsById(PartsOf(bp, dependencies, pin, destination)), RequiredComponents(bp), bp.artifactDependencies, dependencies, pin)
  {
    BlueprintHoldsAll(bp, ADDON_CATALOG);
    PartsAreWellBound(parse, RequiredComponents(bp), bp.artifactDependencies, dependencies, pin, destination);
  }

  // ---- The first two depending on each other ------------------------------------------------------------------

  /** `x` and `y` depend on each other, the rest on nothing. */
  function Mutual(x: string, y: string, rest: nat): seq<seq<string>> {
    [[y], [x]] + seq(rest, _ => [])
  }

  ghost predicate OnlyMutual(g: Graph, x: string, y: string) {
    && x in g && y in g && x != y && g[x].dependsOn == [y] && g[y].dependsOn == [x]
    && forall z | z in g && z != x && z != y :: g[z].dependsOn == []
  }

  lemma MutualCycle(g: Graph, x: string, y: string)
    requires OnlyMutual(g, x, y)
    ensures OnCycle(g, x) && Stuck(g) == {x, y}
  {
    assert IsEdge(g, x, y) && IsEdge(g, y, x);
    assert ClosedWalk(g, [x, y, x], x) && ClosedWalk(g, [y, x, y], y);
    assert WalkToCycle(g, [x], x) && WalkToCycle(g, [y], y);
    forall z
      ensures z in Stuck(g) <==> z == x || z == y
    {
      StuckIffDependsOnCycle(g, z);
      if w :| WalkToCycle(g, w, z) {
        LeavesEndWalks(g, w, z);
      }
    }
  }

  /** A walk to a cycle starts at an artifact with dependencies. */
  lemma LeavesEndWalks(g: Graph, w: seq<string>, x: string)
    requires WalkToCycle(g, w, x)
    ensures x in g && g[x].dependsOn != []
  {
    if |w| > 1 {
      assert IsEdge(g, w[0], w[1]);
    } else {
      var v :| ClosedWalk(g, v, x);
      assert IsEdge(g, v[0], v[1]);
    }
  }

  lemma MutualIsInside(ids: seq<string>)
    requires |ids| >= 2 && Distinct(ids)
    ensures Inside(ids, Mutual(ids[0], ids[1], |ids| - 2))
  {
    assert ids[0] in ids && ids[1] in ids;
  }

  lemma MutualGraph(g: Graph, ids: seq<string>)
    requires |ids| >= 2 && Distinct(ids) && g.Keys == Elems(ids)
    requires forall n | 0 <= n < |ids| :: ids[n] in g && g[ids[n]].dependsOn == Mutual(ids[0], ids[1], |ids| - 2)[n]
    ensures OnlyMutual(g, ids[0], ids[1])
  {
    forall z | z in g && z != ids[0] && z != ids[1]
      ensures g[z].dependsOn == []
    {
      var n :| 0 <= n < |ids| && ids[n] == z;
    }
  }

  /**
    Every required component is bound to a mirrored artifact in order, but the provider's and Kubernetes' depend on each
    other: the cycle is all that is reported, the manifest is BLOCKED, and it names no artifact to resume from.
   */
  lemma MutualDependencyHasNoResumePoint(parse: string -> Url, digest: ManifestBody -> string, bp: ClusterBlueprint, pin: string, destination: string)
    requires BindsOneEach(bp) && OfflineReferenceOk(parse(destination))
    ensures var ids := bp.artifactDependencies;
            && |ids| >= 2
            && var body := Resolve(parse, digest, bp, PartsOf(bp, Mutual(ids[0], ids[1], |ids| - 2), pin, destination)).body;
               body.issues == [DependencyCycle(PlainOrder({ids[0], ids[1]}))] && body.state == BLOCKED && body.resumeFrom == None
  {
    var ids := bp.artifactDependencies;
    var dependencies := Mutual(ids[0], ids[1], |ids| - 2);
    MutualIsInside(ids);
    BlueprintIsBound(parse, bp, dependencies, pin, destination);
    var g := GraphOf(BoundItems(parse, ArtifactsById(PartsOf(bp, dependencies, pin, destination)), Elems(ids)));
    MutualGraph(g, ids);
    MutualCycle(g, ids[0], ids[1]);
    OnlyDefectHasNoResumePoint(parse, digest, bp, PartsOf(bp, dependencies, pin, destination), ids[0]);
  }

  // ---- Whatever their digests -------------------------------------------------------------------------------------

  lemma NoEdgesNoCycle(g: Graph)
    requires forall x | x in g :: g[x].dependsOn == []
    ensures forall c :: !OnCycle(g, c)
  {
    forall c
      ensures !OnCycle(g, c)
    {
      if w :| ClosedWalk(g, w, c) {
        assert IsEdge(g, w[0], w[1]);
      }
    }
  }

  function Independent(count: nat): seq<seq<string>> {
    seq(count, _ => [])
  }

  lemma IndependentGraph(g: Graph, ids: seq<string>)
    requires g.Keys == Elems(ids) && forall n | 0 <= n < |ids| :: ids[n] in g && g[ids[n]].dependsOn == Independent(|ids|)[n]
    ensures forall x | x in g :: g[x].dependsOn == []
  {
    forall x | x in g
      ensures g[x].dependsOn == []
    {
      var n :| 0 <= n < |ids| && ids[n] == x;
    }
  }

  lemma PinnedAlike(order: seq<Item>, pin: string)
    requires order != [] && forall k | 0 <= k < |order| :: order[k].id != "" && order[k].digest == pin
    ensures AllPinned(order) <==> PinnedDigest(pin)
  {
    if AllPinned(order) {
      assert order[0].digest == pin;
    }
  }

  lemma EntriesAlike(parse: string -> Url, byId: map<string, Artifact>, bound: set<string>, order: seq<string>, pin: string)
    requires forall i | 0 <= i < |order| :: order[i] in BoundItems(parse, byId, bound)
    requires (forall id | id in byId :: byId[id].digest == pin) && "" !in bound && order != []
    ensures AllPinned(Entries(BoundItems(parse, byId, bound), order)) <==> PinnedDigest(pin)
  {
    PinnedAlike(Entries(BoundItems(parse, byId, bound), order), pin);
  }

  lemma IndependentIsComplete(parse: string -> Url, byId: map<string, Artifact>, required: seq<Required>, ids: seq<string>, pin: string)
    requires BoundAs(parse, byId, required, ids, Independent(|ids|), pin)
    ensures Complete(parse, byId, required, Elems(ids))
  {
    IndependentGraph(GraphOf(BoundItems(parse, byId, Elems(ids))), ids);
    NoEdgesNoCycle(GraphOf(BoundItems(parse, byId, Elems(ids))));
  }

  lemma IndependentIsReady(parse: string -> Url, digest: ManifestBody -> string, bp: ClusterBlueprint, artifacts: seq<Artifact>, pin: string)
    requires Distinct(bp.artifactDependencies)
    requires BoundAs(parse, ArtifactsById(artifacts), RequiredComponents(bp), bp.artifactDependencies, Independent(|bp.artifactDependencies|), pin)
    ensures Resolve(parse, digest, bp, artifacts).body.state == READY
  {
    IndependentIsComplete(parse, ArtifactsById(artifacts), RequiredComponents(bp), bp.artifactDependencies, pin);
    ReadyIffComplete(parse, digest, bp, artifacts);
  }

  lemma PinnedIff(parse: string -> Url, digest: ManifestBody -> string, bp: ClusterBlueprint, artifacts: seq<Artifact>, pin: string)
    requires Resolve(parse, digest, bp, artifacts).body.state == READY && "" !in Elems(bp.artifactDependencies)
    requires forall id | id in ArtifactsById(artifacts) :: ArtifactsById(artifacts)[id].digest == pin
    ensures AllPinned(Resolve(parse, digest, bp, artifacts).body.dependencyOrder) <==> PinnedDigest(pin)
  {
    OrderNotEmpty(parse, digest, bp, artifacts);
    ReadyOrder(parse, digest, bp, artifacts);
    var items := BoundItems(parse, ArtifactsById(artifacts), Elems(bp.artifactDependencies));
    EntriesAlike(parse, ArtifactsById(artifacts), Elems(bp.artifactDependencies), PublishedOrder(GraphOf(items)), pin);
  }

  lemma SuppliedIff(parse: string -> Url, digest: ManifestBody -> string, bp: ClusterBlueprint, artifacts: seq<Artifact>, pin: string)
    requires Distinct(bp.artifactDependencies) && "" !in Elems(bp.artifactDependencies) && forall body :: digest(body) != ""
    requires BoundAs(parse, ArtifactsById(artifacts), RequiredComponents(bp), bp.artifactDependencies, Independent(|bp.artifactDependencies|), pin)
    ensures Resolve(parse, digest, bp, artifacts).body.state == READY
    ensures Supplyable(parse, digest, Resolve(parse, digest, bp, artifacts)) <==> PinnedDigest(pin)
  {
    IndependentIsReady(parse, digest, bp, artifacts, pin);
    PinnedIff(parse, digest, bp, artifacts, pin);
    ReadyIsSuppliedIffPinned(parse, digest, bp, artifacts);
  }

  lemma IndependentIsInside(ids: seq<string>)
    ensures Inside(ids, Independent(|ids|))
  {
  }

  lemma NoEmptyId(bp: ClusterBlueprint)
    requires BindsOneEach(bp)
    ensures Distinct(bp.artifactDependencies) && "" !in Elems(bp.artifactDependencies)
  {
  }

  /**
    Independent of each other, they are READY whatever digest they carry; the supply check accepts that manifest exactly if
    the digest is exact.
   */
  lemma ReadyWhateverTheDigest(parse: string -> Url, digest: ManifestBody -> string, bp: ClusterBlueprint, pin: string, destination: string)
    requires BindsOneEach(bp) && OfflineReferenceOk(parse(destination)) && forall body :: digest(body) != ""
    ensures var m := Resolve(parse, digest, bp, PartsOf(bp, Independent(|bp.artifactDependencies|), pin, destination));
            m.body.state == READY && (Supplyable(parse, digest, m) <==> PinnedDigest(pin))
  {
    NoEmptyId(bp);
    IndependentIsInside(bp.artifactDependencies);
    BlueprintIsBound(parse, bp, Independent(|bp.artifactDependencies|), pin, destination);
    SuppliedIff(parse, digest, bp, PartsOf(bp, Independent(|bp.artifactDependencies|), pin, destination), pin);
  }
}
