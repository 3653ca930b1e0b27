/**
  What `resume_from_artifact_id` promises (cluster_factory.py:310-313): everything before it is mirrored, free of
  issues and complete in its own dependencies; and exactly when there is none.
 */
module Resume {
  import opened Ordering
  import opened Kahn
  import opened DependencyOrder
  import opened Blueprint
  import opened ReadyManifest
  import opened Wrappers

  /** Position `k` lies before the resume point. */
  ghost predicate BeforeResume(body: ManifestBody, k: nat) {
    k < |body.dependencyOrder| && forall j | 0 <= j <= k :: body.resumeFrom != Some(body.dependencyOrder[j].id)
  }

  lemma {:induction false} PrefixUnheld(order: seq<Item>, issues: seq<Issue>, k: nat)
    requires k < |order| && forall j | 0 <= j <= k :: ResumePoint(order, issues) != Some(order[j].id)
    ensures order[k].mirrored && !NamedBy(issues, order[k].id)
  {
    if k > 0 {
      assert forall j | 0 <= j <= k - 1 :: order[1..][j] == order[j + 1];
      PrefixUnheld(order[1..], issues, k - 1);
    }
  }

  /** An entry's own issues are among the binding issues. */
  lemma {:induction false} EntryIssuesKept(parse: string -> Url, byId: map<string, Artifact>, required: map<(string, string), Required>, ids: seq<string>, k: nat, item: Item)
    requires k <= |ids|
    requires item in BindTo(parse, byId, required, ids, k).resolved
    ensures (item.component, item.name) in required
    ensures forall issue | issue in ItemIssues(item, required[(item.component, item.name)].version) ::
              issue in BindTo(parse, byId, required, ids, k).issues
  {
    var before := BindTo(parse, byId, required, ids, k - 1);
    if item in before.resolved {
      EntryIssuesKept(parse, byId, required, ids, k - 1, item);
    } else {
      assert StepEntries(parse, byId, required, KeysOf(before.resolved), ids[k - 1]) == [item];
    }
  }

  lemma {:induction false} EdgeIssuesKept(resolved: seq<Item>, bound: set<string>, k: nat, i: nat)
    requires i < k <= |resolved|
    ensures forall issue | issue in EdgeIssuesOf(resolved[i], bound, |resolved[i].dependsOn|) :: issue in EdgeIssues(resolved, bound, k)
  {
    if i < k - 1 {
      EdgeIssuesKept(resolved, bound, k - 1, i);
    }
  }

  /** An entry that no issue names has none of the defects the resolver looks for. */
  ghost predicate Clean(item: Item, requiredVersion: string, bound: set<string>) {
    && item.version == requiredVersion
    && item.offlineReference.Some?
    && !HasDuplicates(item.dependsOn)
    && EdgesInside(item, bound)
  }

  lemma UnnamedIsClean(parse: string -> Url, digest: ManifestBody -> string, bp: ClusterBlueprint, artifacts: seq<Artifact>, item: Item)
    requires item in BindingsOf(parse, bp, artifacts).resolved && item.id != ""
    requires !NamedBy(Resolve(parse, digest, bp, artifacts).body.issues, item.id)
    ensures (item.component, item.name) in RequiredMap(RequiredComponents(bp))
    ensures Clean(item, RequiredMap(RequiredComponents(bp))[(item.component, item.name)].version, ManifestGraph(parse, bp, artifacts).Keys)
  {
    var b, required := BindingsOf(parse, bp, artifacts), RequiredComponents(bp);
    EntryIssuesKept(parse, ArtifactsById(artifacts), RequiredMap(required), bp.artifactDependencies, |bp.artifactDependencies|, item);
    var bound := ItemsById(b.resolved).Keys;
    UnnamedInLocal(bp.artifactDependencies, required, b, CycleIssue(ItemsById(b.resolved)), item, RequiredMap(required)[(item.component, item.name)].version);
  }

  lemma UnnamedInLocal(ids: seq<string>, required: seq<Required>, b: Bindings, report: seq<Issue>, item: Item, version: string)
    requires item in b.resolved && item.id != ""
    requires forall issue | issue in ItemIssues(item, version) :: issue in b.issues
    requires !NamedBy(LocalIssues(ids, required, b) + report, item.id)
    ensures Clean(item, version, ItemsById(b.resolved).Keys)
  {
    var bound := ItemsById(b.resolved).Keys;
    var all := LocalIssues(ids, required, b) + report;
    forall issue | issue in b.issues || issue in EdgeIssues(b.resolved, bound, |b.resolved|)
      ensures !issue.Names(item.id)
    {
      assert issue in LocalIssues(ids, required, b);
      assert issue in all;
    }
    NoIssuesOfItem(b.issues, item, version);
    var i :| 0 <= i < |b.resolved| && b.resolved[i] == item;
    EdgeIssuesKept(b.resolved, bound, |b.resolved|, i);
    NoEdgeIssuesOfItem(EdgeIssues(b.resolved, bound, |b.resolved|), item, bound);
  }

  lemma NoIssuesOfItem(issues: seq<Issue>, item: Item, version: string)
    requires item.id != "" && forall issue | issue in ItemIssues(item, version) :: issue in issues
    requires forall issue | issue in issues :: !issue.Names(item.id)
    ensures item.version == version && item.offlineReference.Some? && !HasDuplicates(item.dependsOn)
  {
    var own := ItemIssues(item, version);
    assert item.version != version ==> VersionMismatch(item.id) in own;
    assert item.offlineReference.None? ==> UnsafeOfflineReference(item.id) in own;
    assert HasDuplicates(item.dependsOn) ==> DuplicateEdge(item.id) in own;
  }

  lemma NoEdgeIssuesOfItem(issues: seq<Issue>, item: Item, bound: set<string>)
    requires item.id != "" && forall issue | issue in EdgeIssuesOf(item, bound, |item.dependsOn|) :: issue in issues
    requires forall issue | issue in issues :: !issue.Names(item.id)
    ensures EdgesInside(item, bound)
  {
    var own := EdgeIssuesOf(item, bound, |item.dependsOn|);
    EdgeIssuesOfKind(item, bound, |item.dependsOn|);
    assert forall issue | issue in own :: issue.Names(item.id);
    EmptyOrInhabited(own);
    EdgeIssuesOfEmpty(item, bound, |item.dependsOn|);
  }

  /** Every entry of the order is an entry the binding loop admitted. */
  lemma OrderEntriesAdmitted(parse: string -> Url, digest: ManifestBody -> string, bp: ClusterBlueprint, artifacts: seq<Artifact>, k: nat)
    requires k < |Resolve(parse, digest, bp, artifacts).body.dependencyOrder|
    ensures Resolve(parse, digest, bp, artifacts).body.dependencyOrder[k] in BindingsOf(parse, bp, artifacts).resolved
  {
    var b := BindingsOf(parse, bp, artifacts);
    ItemsByIdKeyed(b.resolved);
    PublishedOrderIn(GraphOf(ItemsById(b.resolved)));
  }

  /** A dependency that is bound comes earlier in a topological order. */
  lemma DependencyIsEarlier(g: Graph, ids: seq<string>, k: nat, d: string)
    requires Topological(g, ids) && k < |ids| && IsEdge(g, ids[k], d)
    ensures exists j :: 0 <= j < k && ids[j] == d
  {
    assert d in Deps(g, ids[k]);
    assert d in Elems(ids[..k]);
    var j :| 0 <= j < |ids[..k]| && ids[..k][j] == d;
    assert ids[j] == d;
  }

  /**
    Without a cycle, each entry before the resume point is mirrored, has no defect, and lists only
    dependencies that stand before it. (An empty artifact id is not recorded as named by an issue.)
   */
  lemma BeforeResumeIsClosed(parse: string -> Url, digest: ManifestBody -> string, bp: ClusterBlueprint, artifacts: seq<Artifact>, k: nat)
    requires BeforeResume(Resolve(parse, digest, bp, artifacts).body, k)
    requires !exists c :: OnCycle(ManifestGraph(parse, bp, artifacts), c)
    ensures var body := Resolve(parse, digest, bp, artifacts).body;
            var item := body.dependencyOrder[k];
            && item.mirrored && !NamedBy(body.issues, item.id)
            && (item.id != "" ==>
                && (item.component, item.name) in RequiredMap(RequiredComponents(bp))
                && Clean(item, RequiredMap(RequiredComponents(bp))[(item.component, item.name)].version, ManifestGraph(parse, bp, artifacts).Keys)
                && forall d | d in item.dependsOn :: exists j :: 0 <= j < k && body.dependencyOrder[j].id == d)
  {
    var body, g := Resolve(parse, digest, bp, artifacts).body, ManifestGraph(parse, bp, artifacts);
    var item := body.dependencyOrder[k];
    PrefixUnheld(body.dependencyOrder, body.issues, k);
    if item.id != "" {
      OrderEntriesAdmitted(parse, digest, bp, artifacts, k);
      UnnamedIsClean(parse, digest, bp, artifacts, item);
      OrderedDependencies(parse, digest, bp, artifacts, k);
    }
  }

  lemma OrderedDependencies(parse: string -> Url, digest: ManifestBody -> string, bp: ClusterBlueprint, artifacts: seq<Artifact>, k: nat)
    requires k < |Resolve(parse, digest, bp, artifacts).body.dependencyOrder|
    requires !exists c :: OnCycle(ManifestGraph(parse, bp, artifacts), c)
    requires EdgesInside(Resolve(parse, digest, bp, artifacts).body.dependencyOrder[k], ManifestGraph(parse, bp, artifacts).Keys)
    ensures var order := Resolve(parse, digest, bp, artifacts).body.dependencyOrder;
            forall d | d in order[k].dependsOn :: exists j :: 0 <= j < k && order[j].id == d
  {
    var order, g := Resolve(parse, digest, bp, artifacts).body.dependencyOrder, ManifestGraph(parse, bp, artifacts);
    ManifestOrder(parse, digest, bp, artifacts, []);
    EntryNode(parse, digest, bp, artifacts, k);
    DependenciesEarlier(g, order, k);
  }

  lemma DependenciesEarlier(g: Graph, order: seq<Item>, k: nat)
    requires Topological(g, IdsOf(order)) && k < |order|
    requires order[k].id in g && g[order[k].id] == NodeOf(order[k]) && EdgesInside(order[k], g.Keys)
    ensures forall d | d in order[k].dependsOn :: exists j :: 0 <= j < k && order[j].id == d
  {
    forall d | d in order[k].dependsOn
      ensures exists j :: 0 <= j < k && order[j].id == d
    {
      DependencyIsEarlier(g, IdsOf(order), k, d);
      var j :| 0 <= j < k && IdsOf(order)[j] == d;
      assert order[j].id == d;
    }
  }

  lemma EntryNode(parse: string -> Url, digest: ManifestBody -> string, bp: ClusterBlueprint, artifacts: seq<Artifact>, k: nat)
    requires k < |Resolve(parse, digest, bp, artifacts).body.dependencyOrder|
    ensures var item, g := Resolve(parse, digest, bp, artifacts).body.dependencyOrder[k], ManifestGraph(parse, bp, artifacts);
            item.id in g && g[item.id] == NodeOf(item)
  {
    var b := BindingsOf(parse, bp, artifacts);
    ItemsByIdKeyed(b.resolved);
    PublishedOrderIn(GraphOf(ItemsById(b.resolved)));
  }

  // ---- Exactly when there is no resume point --------------------------------------------------------------

  predicate BoundTwice(ids: seq<string>, k: nat, id: string)
    requires k <= |ids|
  {
    exists i, j | 0 <= i < j < k :: ids[i] == id && ids[j] == id
  }

  predicate HasEntry(resolved: seq<Item>, id: string) {
    exists item | item in resolved :: item.id == id
  }

  /** After `k` bindings: which issues of the binding loop name `id`, and that it is admitted at its first binding only. */
  ghost predicate NamedSoFar(parse: string -> Url, byId: map<string, Artifact>, required: map<(string, string), Required>,
                             ids: seq<string>, k: nat, b: Bindings, id: string)
    requires k <= |ids|
  {
    && (id !in ids[..k] ==> !HasEntry(b.resolved, id) && !NamedBy(b.issues, id))
    && (id in ids[..k] ==> Admission(parse, byId, required, KeysOf(b.resolved), id).Some?)
    && (forall item | item in b.resolved && item.id == id ::
          && (item.component, item.name) in required
          && (NamedBy(b.issues, id) <==> ItemIssues(item, required[(item.component, item.name)].version) != [] || BoundTwice(ids, k, id)))
  }

  lemma StepNames(parse: string -> Url, byId: map<string, Artifact>, required: map<(string, string), Required>, keys: set<KeyTuple>,
                  bound: string, id: string)
    requires id != ""
    ensures id != bound ==> !NamedBy(StepIssues(parse, byId, required, keys, bound), id)
    ensures id == bound ==> (NamedBy(StepIssues(parse, byId, required, keys, bound), id) <==> StepIssues(parse, byId, required, keys, bound) != [])
  {
    var refusal := Admission(parse, byId, required, keys, bound);
    if refusal.Some? {
      assert refusal.value.Names(bound) || bound == "";
    } else {
      var item := ItemOf(parse, byId[bound], bound);
      ItemIssuesName(item, required[(item.component, item.name)].version, id);
    }
  }

  lemma ItemIssuesName(item: Item, version: string, id: string)
    requires id != ""
    ensures NamedBy(ItemIssues(item, version), id) <==> item.id == id && ItemIssues(item, version) != []
  {
    var issues := ItemIssues(item, version);
    assert forall issue | issue in issues :: issue.Names(id) <==> item.id == id;
    if issues != [] {
      assert issues[0] in issues;
    }
  }

  lemma NamedByConcat(a: seq<Issue>, b: seq<Issue>, id: string)
    ensures NamedBy(a + b, id) <==> NamedBy(a, id) || NamedBy(b, id)
  {
  }

  /** Refused once, refused ever after; and an admitted id is refused when it is bound again. */
  lemma StaysRefused(parse: string -> Url, byId: map<string, Artifact>, required: map<(string, string), Required>, resolved: seq<Item>,
                     bound: string, id: string)
    requires bound == id || Admission(parse, byId, required, KeysOf(resolved), id).Some?
    ensures Admission(parse, byId, required, KeysOf(resolved + StepEntries(parse, byId, required, KeysOf(resolved), bound)), id).Some?
  {
    var entries := StepEntries(parse, byId, required, KeysOf(resolved), bound);
    assert forall item | item in resolved :: item in resolved + entries;
    assert KeysOf(resolved) <= KeysOf(resolved + entries);
    if entries != [] {
      assert entries[0] in resolved + entries;
      assert KeyTupleOf(entries[0]) in KeysOf(resolved + entries);
    }
  }

  lemma NamedByOther(parse: string -> Url, byId: map<string, Artifact>, required: map<(string, string), Required>, ids: seq<string>, k: nat,
                  b: Bindings, next: Bindings, id: string)
    requires k < |ids| && id != "" && NamedSoFar(parse, byId, required, ids, k, b, id)
    requires IsNext(parse, byId, required, ids[k], b, next)
    requires ids[k] != id
    ensures NamedSoFar(parse, byId, required, ids, k + 1, next, id)
  {
    var keys := KeysOf(b.resolved);
    StepNames(parse, byId, required, keys, ids[k], id);
    assert ids[..k + 1] == ids[..k] + [ids[k]];
    if id in ids[..k] {
      StaysRefused(parse, byId, required, b.resolved, ids[k], id);
    }
    NamedKeeps(parse, byId, required, ids, k, b, StepEntries(parse, byId, required, keys, ids[k]), StepIssues(parse, byId, required, keys, ids[k]), next, id);
  }

  lemma NamedKeeps(parse: string -> Url, byId: map<string, Artifact>, required: map<(string, string), Required>, ids: seq<string>, k: nat,
                   b: Bindings, entries: seq<Item>, own: seq<Issue>, next: Bindings, id: string)
    requires k < |ids| && ids[k] != id && NamedSoFar(parse, byId, required, ids, k, b, id)
    requires next.resolved == b.resolved + entries && next.issues == b.issues + own
    requires !NamedBy(own, id) && forall item | item in entries :: item.id != id
    requires id in ids[..k] ==> Admission(parse, byId, required, KeysOf(next.resolved), id).Some?
    ensures NamedSoFar(parse, byId, required, ids, k + 1, next, id)
  {
    NamedByConcat(b.issues, own, id);
    BoundTwiceNext(ids, k, id);
    assert ids[..k + 1] == ids[..k] + [ids[k]];
  }

  lemma NamedByItself(parse: string -> Url, byId: map<string, Artifact>, required: map<(string, string), Required>, ids: seq<string>, k: nat,
                  b: Bindings, next: Bindings, id: string)
    requires k < |ids| && id != "" && NamedSoFar(parse, byId, required, ids, k, b, id)
    requires IsNext(parse, byId, required, ids[k], b, next)
    requires ids[k] == id
    ensures NamedSoFar(parse, byId, required, ids, k + 1, next, id)
  {
    var keys := KeysOf(b.resolved);
    StepNames(parse, byId, required, keys, id, id);
    NamedByConcat(b.issues, StepIssues(parse, byId, required, keys, id), id);
    assert ids[..k + 1] == ids[..k] + [id];
    StaysRefused(parse, byId, required, b.resolved, id, id);
    BoundTwiceNext(ids, k, id);
    if id in ids[..k] {
      assert StepEntries(parse, byId, required, keys, id) == [];
    }
  }

  lemma NamedNext(parse: string -> Url, byId: map<string, Artifact>, required: map<(string, string), Required>, ids: seq<string>, k: nat,
                  b: Bindings, next: Bindings, id: string)
    requires k < |ids| && id != "" && NamedSoFar(parse, byId, required, ids, k, b, id)
    requires IsNext(parse, byId, required, ids[k], b, next)
    ensures NamedSoFar(parse, byId, required, ids, k + 1, next, id)
  {
    if ids[k] == id {
      NamedByItself(parse, byId, required, ids, k, b, next, id);
    } else {
      NamedByOther(parse, byId, required, ids, k, b, next, id);
    }
  }

  lemma BoundTwiceNext(ids: seq<string>, k: nat, id: string)
    requires k < |ids|
    ensures BoundTwice(ids, k + 1, id) <==> BoundTwice(ids, k, id) || (ids[k] == id && id in ids[..k])
  {
    if ids[k] == id && id in ids[..k] {
      var i :| 0 <= i < |ids[..k]| && ids[..k][i] == id;
      assert ids[i] == id;
    }
    if i, j :| 0 <= i < j < k + 1 && ids[i] == id && ids[j] == id && j == k {
      assert ids[..k][i] == id;
    }
  }

  lemma {:induction false} NamedTrace(parse: string -> Url, byId: map<string, Artifact>, required: map<(string, string), Required>,
                                      ids: seq<string>, trace: seq<Bindings>, k: nat, id: string)
    requires k <= |ids| && |trace| == |ids| + 1 && trace[0] == Bindings([], []) && id != ""
    requires forall i | 0 <= i < |ids| :: IsNext(parse, byId, required, ids[i], trace[i], trace[i + 1])
    ensures NamedSoFar(parse, byId, required, ids, k, trace[k], id)
  {
    if k > 0 {
      NamedTrace(parse, byId, required, ids, trace, k - 1, id);
      NamedNext(parse, byId, required, ids, k - 1, trace[k - 1], trace[k], id);
    }
  }

  lemma EdgesByIndex(item: Item, bound: set<string>)
    ensures EdgesInside(item, bound) <==> forall j | 0 <= j < |item.dependsOn| :: item.dependsOn[j] != item.id && item.dependsOn[j] in bound
  {
    if !EdgesInside(item, bound) {
      var d :| d in item.dependsOn && !(d != item.id && d in bound);
      var j :| 0 <= j < |item.dependsOn| && item.dependsOn[j] == d;
    } else {
      assert forall j | 0 <= j < |item.dependsOn| :: item.dependsOn[j] in item.dependsOn;
    }
  }

  lemma EdgeIssuesName(item: Item, bound: set<string>, id: string)
    requires id != ""
    ensures NamedBy(EdgeIssuesOf(item, bound, |item.dependsOn|), id) <==> item.id == id && !EdgesInside(item, bound)
  {
    var own := EdgeIssuesOf(item, bound, |item.dependsOn|);
    EdgeIssuesOfKind(item, bound, |item.dependsOn|);
    EdgeIssuesOfEmpty(item, bound, |item.dependsOn|);
    EdgesByIndex(item, bound);
    if own != [] {
      assert own[0] in own;
    }
  }

  lemma {:induction false} EdgeLoopNames(resolved: seq<Item>, bound: set<string>, k: nat, id: string)
    requires k <= |resolved| && id != ""
    ensures NamedBy(EdgeIssues(resolved, bound, k), id) <==> exists i :: 0 <= i < k && resolved[i].id == id && !EdgesInside(resolved[i], bound)
  {
    if k > 0 {
      EdgeLoopNames(resolved, bound, k - 1, id);
      EdgeIssuesName(resolved[k - 1], bound, id);
      NamedByConcat(EdgeIssues(resolved, bound, k - 1), EdgeIssuesOf(resolved[k - 1], bound, |resolved[k - 1].dependsOn|), id);
    }
  }

  lemma LocalIssuesSum(ids: seq<string>, required: seq<Required>, b: Bindings)
    ensures LocalIssues(ids, required, b) ==
            (if HasDuplicates(ids) then [DuplicateBinding] else []) + b.issues + CoverageIssues(required, b.resolved)
            + EdgeIssues(b.resolved, ItemsById(b.resolved).Keys, |b.resolved|)
  {
  }

  lemma CycleNamesNobody(items: map<string, Item>, id: string)
    ensures forall issue | issue in CycleIssue(items) :: !issue.Names(id)
  {
  }

  lemma MissingNamesNobody(required: seq<Required>, resolved: seq<Item>, id: string)
    ensures forall issue | issue in CoverageIssues(required, resolved) :: !issue.Names(id)
  {
  }

  /** Of all issues, the binding loop's and the edge loop's are the ones that name artifacts. */
  lemma WhoNames(ids: seq<string>, required: seq<Required>, b: Bindings, id: string)
    ensures NamedBy(LocalIssues(ids, required, b) + CycleIssue(ItemsById(b.resolved)), id) <==>
            NamedBy(b.issues, id) || NamedBy(EdgeIssues(b.resolved, ItemsById(b.resolved).Keys, |b.resolved|), id)
  {
    LocalIssuesSum(ids, required, b);
    MissingNamesNobody(required, b.resolved, id);
    CycleNamesNobody(ItemsById(b.resolved), id);
    NamedInSum(if HasDuplicates(ids) then [DuplicateBinding] else [], b.issues, CoverageIssues(required, b.resolved),
               EdgeIssues(b.resolved, ItemsById(b.resolved).Keys, |b.resolved|), CycleIssue(ItemsById(b.resolved)), id);
  }

  lemma NamedInSum(twice: seq<Issue>, own: seq<Issue>, missing: seq<Issue>, edges: seq<Issue>, cycle: seq<Issue>, id: string)
    requires forall issue | issue in twice :: !issue.Names(id)
    requires forall issue | issue in missing :: !issue.Names(id)
    requires forall issue | issue in cycle :: !issue.Names(id)
    ensures NamedBy(twice + own + missing + edges + cycle, id) <==> NamedBy(own, id) || NamedBy(edges, id)
  {
    NamedByConcat(twice + own + missing + edges, cycle, id);
    NamedByConcat(twice + own + missing, edges, id);
    NamedByConcat(twice + own, missing, id);
    NamedByConcat(twice, own, id);
  }

  lemma NoItemIssues(item: Item, version: string)
    ensures ItemIssues(item, version) == [] <==>
            item.version == version && item.offlineReference.Some? && item.mirrored && !HasDuplicates(item.dependsOn)
  {
  }

  /** Nothing holds this entry up: it is mirrored, has no defect of its own, and its id is bound once. */
  ghost predicate Settled(item: Item, ids: seq<string>, required: map<(string, string), Required>, bound: set<string>) {
    && item.mirrored
    && (item.id != "" ==>
          && (item.component, item.name) in required && Clean(item, required[(item.component, item.name)].version, bound)
          && !BoundTwice(ids, |ids|, item.id))
  }

  lemma EntryUnnamedIff(parse: string -> Url, byId: map<string, Artifact>, required: seq<Required>, ids: seq<string>, item: Item)
    requires item in BindTo(parse, byId, RequiredMap(required), ids, |ids|).resolved
    ensures var b := BindTo(parse, byId, RequiredMap(required), ids, |ids|);
            item.mirrored && !NamedBy(LocalIssues(ids, required, b) + CycleIssue(ItemsById(b.resolved)), item.id) <==>
            Settled(item, ids, RequiredMap(required), ItemsById(b.resolved).Keys)
  {
    if item.id != "" {
      var trace := BindTrace(parse, byId, RequiredMap(required), ids);
      NamedTrace(parse, byId, RequiredMap(required), ids, trace, |ids|, item.id);
      ResolvedAreBound(parse, byId, RequiredMap(required), ids, |ids|);
      UnnamedIff(byId, required, ids, trace[|ids|], item, parse);
    }
  }

  lemma UnnamedIff(byId: map<string, Artifact>, required: seq<Required>, ids: seq<string>, b: Bindings, item: Item, parse: string -> Url)
    requires item in b.resolved && item.id != "" && BoundEntries(parse, byId, b.resolved)
    requires NamedSoFar(parse, byId, RequiredMap(required), ids, |ids|, b, item.id)
    ensures item.mirrored && !NamedBy(LocalIssues(ids, required, b) + CycleIssue(ItemsById(b.resolved)), item.id) <==>
            Settled(item, ids, RequiredMap(required), ItemsById(b.resolved).Keys)
  {
    var bound := ItemsById(b.resolved).Keys;
    WhoNames(ids, required, b, item.id);
    EdgeLoopNames(b.resolved, bound, |b.resolved|, item.id);
    NoItemIssues(item, RequiredMap(required)[(item.component, item.name)].version);
    EntryIdsDistinct(parse, byId, b.resolved);
    var i :| 0 <= i < |b.resolved| && b.resolved[i] == item;
    assert forall j | 0 <= j < |b.resolved| && b.resolved[j].id == item.id :: j == i;
  }

  lemma {:induction false} NoResumePoint(order: seq<Item>, issues: seq<Issue>)
    ensures ResumePoint(order, issues) == None <==> forall item | item in order :: item.mirrored && !NamedBy(issues, item.id)
  {
    if order != [] {
      NoResumePoint(order[1..], issues);
      assert order == [order[0]] + order[1..];
    }
  }

  /** The entry at `k` is the first one that is not mirrored or that an issue names. */
  predicate HeldUpFirst(order: seq<Item>, issues: seq<Issue>, k: nat) {
    && k < |order| && (!order[k].mirrored || NamedBy(issues, order[k].id))
    && forall j | 0 <= j < k :: order[j].mirrored && !NamedBy(issues, order[j].id)
  }

  lemma {:induction false} FirstHeldUp(order: seq<Item>, issues: seq<Issue>) returns (k: nat)
    requires ResumePoint(order, issues).Some?
    ensures HeldUpFirst(order, issues, k) && ResumePoint(order, issues) == Some(order[k].id)
  {
    if !order[0].mirrored || NamedBy(issues, order[0].id) {
      k := 0;
    } else {
      var later := FirstHeldUp(order[1..], issues);
      k := later + 1;
      assert order[k] == order[1..][later];
      forall j | 0 <= j < k
        ensures order[j].mirrored && !NamedBy(issues, order[j].id)
      {
        if j > 0 {
          assert order[j] == order[1..][j - 1];
        }
      }
    }
  }

  lemma OneHeldUpFirst(order: seq<Item>, issues: seq<Issue>, j: nat, k: nat)
    requires HeldUpFirst(order, issues, j) && HeldUpFirst(order, issues, k)
    ensures j == k
  {
  }

  /** The entry at `k` is held up, and no entry before it. */
  ghost predicate ResumesAt(order: seq<Item>, ids: seq<string>, required: map<(string, string), Required>, bound: set<string>, k: nat) {
    k < |order| && !Settled(order[k], ids, required, bound) && forall j | 0 <= j < k :: Settled(order[j], ids, required, bound)
  }

  ghost predicate ResumesFrom(order: seq<Item>, ids: seq<string>, required: map<(string, string), Required>, bound: set<string>, x: string) {
    exists k: nat :: ResumesAt(order, ids, required, bound, k) && order[k].id == x
  }

  lemma ResumesAtFirst(order: seq<Item>, issues: seq<Issue>, ids: seq<string>, required: map<(string, string), Required>, bound: set<string>, x: string)
    requires forall k | 0 <= k < |order| :: order[k].mirrored && !NamedBy(issues, order[k].id) <==> Settled(order[k], ids, required, bound)
    ensures ResumePoint(order, issues) == Some(x) <==> ResumesFrom(order, ids, required, bound, x)
  {
    if ResumePoint(order, issues).Some? {
      var first := FirstHeldUp(order, issues);
      assert ResumesAt(order, ids, required, bound, first);
      if k: nat :| ResumesAt(order, ids, required, bound, k) && order[k].id == x {
        OneHeldUpFirst(order, issues, first, k);
      }
    } else {
      NoResumePoint(order, issues);
      assert forall k | 0 <= k < |order| :: order[k] in order;
    }
  }

  /** The artifact to resume from is exactly the first entry of the order that something holds up. */
  lemma ResumePointIff(parse: string -> Url, digest: ManifestBody -> string, bp: ClusterBlueprint, artifacts: seq<Artifact>, x: string)
    ensures var body := Resolve(parse, digest, bp, artifacts).body;
            body.resumeFrom == Some(x) <==>
              ResumesFrom(body.dependencyOrder, bp.artifactDependencies, RequiredMap(RequiredComponents(bp)),
                          ManifestGraph(parse, bp, artifacts).Keys, x)
  {
    var body := Resolve(parse, digest, bp, artifacts).body;
    forall k | 0 <= k < |body.dependencyOrder|
      ensures body.dependencyOrder[k].mirrored && !NamedBy(body.issues, body.dependencyOrder[k].id) <==>
              Settled(body.dependencyOrder[k], bp.artifactDependencies, RequiredMap(RequiredComponents(bp)), ManifestGraph(parse, bp, artifacts).Keys)
    {
      OrderedUnnamedIff(parse, digest, bp, artifacts, k);
    }
    ResumesAtFirst(body.dependencyOrder, body.issues, bp.artifactDependencies, RequiredMap(RequiredComponents(bp)),
                   ManifestGraph(parse, bp, artifacts).Keys, x);
  }

  /** No artifact is named to resume from exactly if nothing holds any entry up. */
  lemma NoResumePointIff(parse: string -> Url, digest: ManifestBody -> string, bp: ClusterBlueprint, artifacts: seq<Artifact>)
    ensures var body := Resolve(parse, digest, bp, artifacts).body;
            body.resumeFrom == None <==>
              forall item | item in body.dependencyOrder ::
                Settled(item, bp.artifactDependencies, RequiredMap(RequiredComponents(bp)), ManifestGraph(parse, bp, artifacts).Keys)
  {
    var order := Resolve(parse, digest, bp, artifacts).body.dependencyOrder;
    forall k | 0 <= k < |order|
      ensures order[k].mirrored && !NamedBy(Resolve(parse, digest, bp, artifacts).body.issues, order[k].id) <==>
              Settled(order[k], bp.artifactDependencies, RequiredMap(RequiredComponents(bp)), ManifestGraph(parse, bp, artifacts).Keys)
    {
      OrderedUnnamedIff(parse, digest, bp, artifacts, k);
    }
    NoneHeldUp(order, Resolve(parse, digest, bp, artifacts).body.issues, bp.artifactDependencies, RequiredMap(RequiredComponents(bp)),
               ManifestGraph(parse, bp, artifacts).Keys);
  }

  lemma NoneHeldUp(order: seq<Item>, issues: seq<Issue>, ids: seq<string>, required: map<(string, string), Required>, bound: set<string>)
    requires forall k | 0 <= k < |order| :: order[k].mirrored && !NamedBy(issues, order[k].id) <==> Settled(order[k], ids, required, bound)
    ensures ResumePoint(order, issues) == None <==> forall item | item in order :: Settled(item, ids, required, bound)
  {
    NoResumePoint(order, issues);
  }

  lemma OrderedUnnamedIff(parse: string -> Url, digest: ManifestBody -> string, bp: ClusterBlueprint, artifacts: seq<Artifact>, k: nat)
    requires k < |Resolve(parse, digest, bp, artifacts).body.dependencyOrder|
    ensures var body := Resolve(parse, digest, bp, artifacts).body;
            var item := body.dependencyOrder[k];
            item.mirrored && !NamedBy(body.issues, item.id) <==>
            Settled(item, bp.artifactDependencies, RequiredMap(RequiredComponents(bp)), ManifestGraph(parse, bp, artifacts).Keys)
  {
    OrderEntriesAdmitted(parse, digest, bp, artifacts, k);
    EntryUnnamedIff(parse, ArtifactsById(artifacts), RequiredComponents(bp), bp.artifactDependencies,
                    Resolve(parse, digest, bp, artifacts).body.dependencyOrder[k]);
    GraphKeys(ItemsById(BindingsOf(parse, bp, artifacts).resolved));
  }

  lemma GraphKeys(items: map<string, Item>)
    ensures GraphOf(items).Keys == items.Keys
  {
  }

  /**
    A manifest is BLOCKED and yet names no artifact to resume from exactly if the bindings are not complete although
    nothing holds up any artifact that was admitted: then the defect is a refused binding, an uncovered component or
    a cycle.
   */
  lemma BlockedWithoutResumePointIff(parse: string -> Url, digest: ManifestBody -> string, bp: ClusterBlueprint, artifacts: seq<Artifact>)
    ensures var body, ids := Resolve(parse, digest, bp, artifacts).body, bp.artifactDependencies;
            body.state == BLOCKED && body.resumeFrom == None <==>
              && !(Distinct(ids) && Complete(parse, ArtifactsById(artifacts), RequiredComponents(bp), Elems(ids)))
              && forall item | item in body.dependencyOrder ::
                   Settled(item, ids, RequiredMap(RequiredComponents(bp)), ManifestGraph(parse, bp, artifacts).Keys)
  {
    ReadyIffComplete(parse, digest, bp, artifacts);
    NoResumePointIff(parse, digest, bp, artifacts);
  }

  lemma NothingCovers(parse: string -> Url, byId: map<string, Artifact>, required: seq<Required>)
    requires required != []
    ensures !Complete(parse, byId, required, {})
  {
    assert required[0] in required;
  }

  lemma NothingOrdered(parse: string -> Url, digest: ManifestBody -> string, bp: ClusterBlueprint, artifacts: seq<Artifact>)
    requires bp.artifactDependencies == []
    ensures Resolve(parse, digest, bp, artifacts).body.dependencyOrder == []
  {
    OrderIds(parse, digest, bp, artifacts);
    assert BindingsOf(parse, bp, artifacts) == Bindings([], []);
    assert ManifestGraph(parse, bp, artifacts) == map[];
    OrderIsPermutation(map[]);
    ElemsEmpty(PublishedOrder(map[]));
  }

  /** So it is where nothing is bound at all. */
  lemma NothingBoundHasNoResumePoint(parse: string -> Url, digest: ManifestBody -> string, bp: ClusterBlueprint, artifacts: seq<Artifact>)
    requires bp.artifactDependencies == []
    ensures Resolve(parse, digest, bp, artifacts).body.state == BLOCKED && Resolve(parse, digest, bp, artifacts).body.resumeFrom == None
  {
    BlockedWithoutResumePointIff(parse, digest, bp, artifacts);
    assert Elems(bp.artifactDependencies) == {};
    NothingCovers(parse, ArtifactsById(artifacts), RequiredComponents(bp));
    NothingOrdered(parse, digest, bp, artifacts);
  }

  // ---- A cycle ---------------------------------------------------------------------------------------------

  /** Where nothing but a cycle is wrong with the admitted artifacts, there is no resume point. */
  lemma CycleAloneHasNoResumePoint(parse: string -> Url, digest: ManifestBody -> string, bp: ClusterBlueprint, artifacts: seq<Artifact>, c: string)
    requires OnCycle(ManifestGraph(parse, bp, artifacts), c)
    requires forall item | item in BindingsOf(parse, bp, artifacts).resolved ::
               Settled(item, bp.artifactDependencies, RequiredMap(RequiredComponents(bp)), ManifestGraph(parse, bp, artifacts).Keys)
    ensures Resolve(parse, digest, bp, artifacts).body.state == BLOCKED && Resolve(parse, digest, bp, artifacts).body.resumeFrom == None
  {
    var body := Resolve(parse, digest, bp, artifacts).body;
    NoResumePointIff(parse, digest, bp, artifacts);
    forall item | item in body.dependencyOrder
      ensures item in BindingsOf(parse, bp, artifacts).resolved
    {
      var k :| 0 <= k < |body.dependencyOrder| && body.dependencyOrder[k] == item;
      OrderEntriesAdmitted(parse, digest, bp, artifacts, k);
    }
    CycleIssueOnly(ItemsById(BindingsOf(parse, bp, artifacts).resolved), c);
    ResolvedFields(parse, digest, bp, artifacts);
  }

  lemma AllMirrored(items: map<string, Item>, order: seq<string>)
    requires forall i | 0 <= i < |order| :: order[i] in items
    requires forall id | id in items :: items[id].mirrored
    ensures forall item | item in Entries(items, order) :: item.mirrored
  {
  }

  lemma CycleHoldsNobodyUp(order: seq<Item>, ids: seq<string>)
    requires forall item | item in order :: item.mirrored
    ensures ResumePoint(order, [DependencyCycle(ids)]) == None
  {
    NoResumePoint(order, [DependencyCycle(ids)]);
  }

  lemma MirroredItems(parse: string -> Url, byId: map<string, Artifact>, required: seq<Required>, bound: set<string>)
    requires WellBound(parse, byId, required, bound)
    ensures forall id | id in BoundItems(parse, byId, bound) :: BoundItems(parse, byId, bound)[id].mirrored
  {
  }

  lemma CycleIssueOnly(items: map<string, Item>, c: string)
    requires OnCycle(GraphOf(items), c)
    ensures CycleIssue(items) == [DependencyCycle(PlainOrder(Stuck(GraphOf(items))))]
  {
    OrderableIffAcyclic(GraphOf(items));
  }

  lemma MirroredOrderHasNoResumePoint(b: Bindings, ids: seq<string>)
    requires forall id | id in ItemsById(b.resolved) :: ItemsById(b.resolved)[id].mirrored
    ensures ResumePoint(OrderOf(b), [DependencyCycle(ids)]) == None
  {
    var items := ItemsById(b.resolved);
    PublishedOrderIn(GraphOf(items));
    AllMirrored(items, PublishedOrder(GraphOf(items)));
    CycleHoldsNobodyUp(OrderOf(b), ids);
  }

  lemma ResolvedFields(parse: string -> Url, digest: ManifestBody -> string, bp: ClusterBlueprint, artifacts: seq<Artifact>)
    ensures var body, b := Resolve(parse, digest, bp, artifacts).body, BindingsOf(parse, bp, artifacts);
            && body.issues == LocalIssues(bp.artifactDependencies, RequiredComponents(bp), b) + CycleIssue(ItemsById(b.resolved))
            && body.resumeFrom == ResumePoint(OrderOf(b), body.issues) && (body.state == READY <==> body.issues == [])
  {
  }

  /** Where a cycle is the only defect of the whole binding, the manifest is BLOCKED, says so, and has no resume point. */
  lemma OnlyDefectHasNoResumePoint(parse: string -> Url, digest: ManifestBody -> string, bp: ClusterBlueprint, artifacts: seq<Artifact>, c: string)
    requires Distinct(bp.artifactDependencies)
    requires WellBound(parse, ArtifactsById(artifacts), RequiredComponents(bp), Elems(bp.artifactDependencies))
    requires OnCycle(GraphOf(BoundItems(parse, ArtifactsById(artifacts), Elems(bp.artifactDependencies))), c)
    ensures var body, items := Resolve(parse, digest, bp, artifacts).body, BoundItems(parse, ArtifactsById(artifacts), Elems(bp.artifactDependencies));
            && body.issues == [DependencyCycle(PlainOrder(Stuck(GraphOf(items))))] && body.state == BLOCKED && body.resumeFrom == None
  {
    var items := BoundItems(parse, ArtifactsById(artifacts), Elems(bp.artifactDependencies));
    WellBoundEntries(parse, ArtifactsById(artifacts), RequiredComponents(bp), bp.artifactDependencies);
    MirroredItems(parse, ArtifactsById(artifacts), RequiredComponents(bp), Elems(bp.artifactDependencies));
    CycleIssueOnly(items, c);
    MirroredOrderHasNoResumePoint(BindingsOf(parse, bp, artifacts), PlainOrder(Stuck(GraphOf(items))));
    ResolvedFields(parse, digest, bp, artifacts);
  }
}
