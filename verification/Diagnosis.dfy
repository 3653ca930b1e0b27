/**
  What a manifest's issues mean: each is reported exactly where there is the defect it names, and each entry is what its
  artifact says (cluster_factory.py:210-307).
 */
module Diagnosis {
  import opened Wrappers
  import opened Ordering
  import opened Kahn
  import opened DependencyOrder
  import opened Blueprint
  import opened ReadyManifest
  import Text

  type ById = map<string, Artifact>
  type ByKey = map<(string, string), Required>

  // ---- Artifacts and entries ----------------------------------------------------------------------------

  /** The artifact of an id is the last one listed with it. */
  lemma {:induction false} LastWithId(artifacts: seq<Artifact>, id: string)
    ensures id in ArtifactsById(artifacts) <==> exists k :: 0 <= k < |artifacts| && artifacts[k].id == id
    ensures id in ArtifactsById(artifacts) ==>
              exists k :: 0 <= k < |artifacts| && artifacts[k].id == id && ArtifactsById(artifacts)[id] == artifacts[k]
                          && forall m | k < m < |artifacts| :: artifacts[m].id != id
  {
    if artifacts != [] {
      var front, last := artifacts[..|artifacts| - 1], |artifacts| - 1;
      LastWithId(front, id);
      if artifacts[last].id != id && id in ArtifactsById(front) {
        var k :| 0 <= k < |front| && front[k].id == id && ArtifactsById(front)[id] == front[k] && forall m | k < m < |front| :: front[m].id != id;
        assert artifacts[k] == front[k] && forall m | k < m < |artifacts| :: artifacts[m].id != id;
      }
      if k :| 0 <= k < |artifacts| && artifacts[k].id == id {
        assert k < last ==> front[k].id == id;
      }
    }
  }

  function LabelOf(a: Artifact, key: string): string {
    if key in a.labels then a.labels[key] else ""
  }

  /** What an entry says of its artifact. */
  ghost predicate Describes(parse: string -> Url, item: Item, a: Artifact) {
    && item.component == LabelOf(a, "blueprint_component") && item.name == LabelOf(a, "blueprint_name")
    && item.dependencyKey == LabelOf(a, "dependency_key") && item.dependsOn == Text.DependencyList(LabelOf(a, "depends_on"))
    && item.kind == a.kind && item.version == a.version && item.digest == a.digest
    && item.offlineReference == (if OfflineReferenceOk(parse(a.destination)) then Some(a.destination) else None)
    && (item.mirrored <==> a.verification.Some? && a.verification.value.status == "PASS" && a.verification.value.syncState == "MIRRORED")
    && item.verificationId == (if a.verification.Some? then a.verification.value.verificationId else None)
    && item.observedAt == (if a.verification.Some? then a.verification.value.observedAt else None)
  }

  lemma ItemDescribes(parse: string -> Url, a: Artifact, id: string)
    ensures Describes(parse, ItemOf(parse, a, id), a) && ItemOf(parse, a, id).id == id
  {
  }

  /** Every entry of a manifest is a bound artifact's, and says of it what its row and labels say. */
  lemma EntriesDescribe(parse: string -> Url, digest: ManifestBody -> string, bp: ClusterBlueprint, artifacts: seq<Artifact>, item: Item)
    requires item in Resolve(parse, digest, bp, artifacts).body.dependencyOrder
    ensures item.id in bp.artifactDependencies && item.id in ArtifactsById(artifacts) && Describes(parse, item, ArtifactsById(artifacts)[item.id])
  {
    OrderIsResolved(parse, digest, bp, artifacts);
    var byId, required, ids := ArtifactsById(artifacts), RequiredMap(RequiredComponents(bp)), bp.artifactDependencies;
    var trace := BindTrace(parse, byId, required, ids);
    var j := EntryFrom(parse, byId, required, ids, trace, |ids|, item);
    ItemDescribes(parse, byId[ids[j]], ids[j]);
  }

  function IdsIn(order: seq<Item>): set<string> {
    set x | x in order :: x.id
  }

  lemma KeysAreIds(resolved: seq<Item>)
    requires forall i, j | 0 <= i < j < |resolved| :: resolved[i].id != resolved[j].id
    ensures ItemsById(resolved).Keys == IdsIn(resolved)
  {
    ItemsByIdAre(resolved);
  }

  /** No two entries share an id. */
  lemma EntriesKeyed(parse: string -> Url, bp: ClusterBlueprint, artifacts: seq<Artifact>)
    ensures var resolved := BindingsOf(parse, bp, artifacts).resolved;
            && (forall i, j | 0 <= i < j < |resolved| :: resolved[i].id != resolved[j].id)
            && ItemsById(resolved).Keys == IdsIn(resolved)
  {
    var byId, required, ids := ArtifactsById(artifacts), RequiredMap(RequiredComponents(bp)), bp.artifactDependencies;
    var resolved := BindingsOf(parse, bp, artifacts).resolved;
    ResolvedAreBound(parse, byId, required, ids, |ids|);
    EntryIdsDistinct(parse, byId, resolved);
    KeysAreIds(resolved);
  }

  /** The order holds the entries of the binding loop, no more and no fewer. */
  lemma OrderIsResolved(parse: string -> Url, digest: ManifestBody -> string, bp: ClusterBlueprint, artifacts: seq<Artifact>)
    ensures forall item :: item in Resolve(parse, digest, bp, artifacts).body.dependencyOrder <==> item in BindingsOf(parse, bp, artifacts).resolved
  {
    EntriesKeyed(parse, bp, artifacts);
    OrderHoldsAll(BindingsOf(parse, bp, artifacts));
  }

  lemma OrderHoldsAll(b: Bindings)
    requires forall i, j | 0 <= i < j < |b.resolved| :: b.resolved[i].id != b.resolved[j].id
    ensures forall item :: item in OrderOf(b) <==> item in b.resolved
  {
    var items := ItemsById(b.resolved);
    ItemsByIdAre(b.resolved);
    ItemsByIdKeyed(b.resolved);
    OrderIsPermutation(GraphOf(items));
    PublishedOrderIn(GraphOf(items));
    SameEntries(b.resolved, items, PublishedOrder(GraphOf(items)), OrderOf(b));
  }

  lemma SameEntries(resolved: seq<Item>, items: map<string, Item>, ids: seq<string>, order: seq<Item>)
    requires forall i | 0 <= i < |resolved| :: resolved[i].id in items && items[resolved[i].id] == resolved[i]
    requires forall id | id in items :: items[id] in resolved
    requires Elems(ids) == GraphOf(items).Keys && |order| == |ids|
    requires forall i | 0 <= i < |ids| :: ids[i] in items && order[i] == items[ids[i]]
    ensures forall item :: item in order <==> item in resolved
  {
    forall item | item in resolved
      ensures item in order
    {
      assert item.id in GraphOf(items).Keys;
      var i :| 0 <= i < |ids| && ids[i] == item.id;
      assert order[i] == item;
    }
  }

  // ---- The binding loop ---------------------------------------------------------------------------------

  /** The artifact exists, is of a required component, and has a key of one to 120 characters. */
  predicate Fits(byId: ById, required: ByKey, id: string) {
    id in byId && (LabelOf(byId[id], "blueprint_component"), LabelOf(byId[id], "blueprint_name")) in required
    && 1 <= |LabelOf(byId[id], "dependency_key")| <= 120
  }

  predicate SameKey(byId: ById, x: string, y: string)
    requires x in byId && y in byId
  {
    && LabelOf(byId[x], "blueprint_component") == LabelOf(byId[y], "blueprint_component")
    && LabelOf(byId[x], "blueprint_name") == LabelOf(byId[y], "blueprint_name")
    && LabelOf(byId[x], "dependency_key") == LabelOf(byId[y], "dependency_key")
  }

  /** An earlier binding that fits has the same component, name and key. */
  predicate Anticipated(byId: ById, required: ByKey, ids: seq<string>, i: nat)
    requires i < |ids| && ids[i] in byId
  {
    exists j | 0 <= j < i :: Fits(byId, required, ids[j]) && SameKey(byId, ids[j], ids[i])
  }

  /** The `i`-th binding is refused, and why. */
  predicate Refused(byId: ById, required: ByKey, ids: seq<string>, i: nat, issue: Issue)
    requires i < |ids|
  {
    var id := ids[i];
    match issue
    case MissingArtifact(x) => x == id && id !in byId
    case UnexpectedComponent(x) =>
      x == id && id in byId && (LabelOf(byId[id], "blueprint_component"), LabelOf(byId[id], "blueprint_name")) !in required
    case InvalidDependencyKey(x) =>
      && x == id && id in byId && (LabelOf(byId[id], "blueprint_component"), LabelOf(byId[id], "blueprint_name")) in required
      && !(1 <= |LabelOf(byId[id], "dependency_key")| <= 120)
    case DuplicateDependencyKey(x) => x == id && Fits(byId, required, id) && Anticipated(byId, required, ids, i)
    case _ => false
  }

  /** The entry has the defect. */
  predicate Defective(required: ByKey, item: Item, issue: Issue) {
    match issue
    case VersionMismatch(x) => x == item.id && (item.component, item.name) in required && item.version != required[(item.component, item.name)].version
    case UnsafeOfflineReference(x) => x == item.id && item.offlineReference == None
    case ArtifactNotMirrored(x) => x == item.id && !item.mirrored
    case DuplicateEdge(x) => x == item.id && exists i, j | 0 <= i < j < |item.dependsOn| :: item.dependsOn[i] == item.dependsOn[j]
    case _ => false
  }

  lemma ItemIssuesIff(required: ByKey, item: Item, issue: Issue)
    requires (item.component, item.name) in required
    ensures issue in ItemIssues(item, required[(item.component, item.name)].version) <==> Defective(required, item, issue)
  {
    var version := required[(item.component, item.name)].version;
    InSum(if item.version != version then [VersionMismatch(item.id)] else [],
          if item.offlineReference.None? then [UnsafeOfflineReference(item.id)] else [],
          if !item.mirrored then [ArtifactNotMirrored(item.id)] else [],
          if HasDuplicates(item.dependsOn) then [DuplicateEdge(item.id)] else [], issue);
  }

  lemma InSum<T>(a: seq<T>, b: seq<T>, c: seq<T>, d: seq<T>, x: T)
    ensures x in a + b + c + d <==> x in a || x in b || x in c || x in d
  {
  }

  /** Whether an entry's key is taken, by what was bound before. */
  predicate Taken(byId: ById, required: ByKey, ids: seq<string>, k: nat, key: KeyTuple)
    requires k <= |ids|
  {
    exists j | 0 <= j < k :: Fits(byId, required, ids[j]) && KeyAt(byId, ids[j]) == key
  }

  function KeyAt(byId: ById, id: string): KeyTuple
    requires id in byId
  {
    (LabelOf(byId[id], "blueprint_component"), LabelOf(byId[id], "blueprint_name"), LabelOf(byId[id], "dependency_key"))
  }

  lemma AdmissionIff(parse: string -> Url, byId: ById, required: ByKey, keys: set<KeyTuple>, id: string)
    ensures Admission(parse, byId, required, keys, id).None? <==> Fits(byId, required, id) && KeyAt(byId, id) !in keys
    ensures id in byId ==> KeyTupleOf(ItemOf(parse, byId[id], id)) == KeyAt(byId, id)
  {
  }

  lemma KeysMore(resolved: seq<Item>, item: Item)
    ensures KeysOf(resolved + [item]) == KeysOf(resolved) + {KeyTupleOf(item)}
  {
    assert forall x :: x in resolved + [item] <==> x in resolved || x == item;
  }

  /** The keys of the entries are those that earlier bindings took. */
  ghost predicate KeysAre(byId: ById, required: ByKey, ids: seq<string>, k: nat, b: Bindings)
    requires k <= |ids|
  {
    forall key :: key in KeysOf(b.resolved) <==> Taken(byId, required, ids, k, key)
  }

  lemma KeysNext(parse: string -> Url, byId: ById, required: ByKey, ids: seq<string>, k: nat, b: Bindings, next: Bindings)
    requires k < |ids| && KeysAre(byId, required, ids, k, b) && IsNext(parse, byId, required, ids[k], b, next)
    ensures KeysAre(byId, required, ids, k + 1, next)
  {
    AdmissionIff(parse, byId, required, KeysOf(b.resolved), ids[k]);
    if Admission(parse, byId, required, KeysOf(b.resolved), ids[k]).None? {
      KeysMore(b.resolved, ItemOf(parse, byId[ids[k]], ids[k]));
    } else {
      assert b.resolved + StepEntries(parse, byId, required, KeysOf(b.resolved), ids[k]) == b.resolved;
    }
    forall key
      ensures key in KeysOf(next.resolved) <==> Taken(byId, required, ids, k + 1, key)
    {
      TakenNext(byId, required, ids, k, key);
    }
  }

  lemma TakenNext(byId: ById, required: ByKey, ids: seq<string>, k: nat, key: KeyTuple)
    requires k < |ids|
    ensures Taken(byId, required, ids, k + 1, key) <==>
            Taken(byId, required, ids, k, key) || (Fits(byId, required, ids[k]) && KeyAt(byId, ids[k]) == key)
  {
  }

  /** Where an entry comes from. */
  lemma {:induction false} EntryFrom(parse: string -> Url, byId: ById, required: ByKey, ids: seq<string>, trace: seq<Bindings>, k: nat, item: Item)
      returns (j: nat)
    requires k <= |ids| && |trace| == |ids| + 1 && trace[0] == Bindings([], [])
    requires forall i | 0 <= i < |ids| :: IsNext(parse, byId, required, ids[i], trace[i], trace[i + 1])
    requires item in trace[k].resolved
    ensures j < k && Fits(byId, required, ids[j]) && item == ItemOf(parse, byId[ids[j]], ids[j])
  {
    j := k - 1;
    AdmissionIff(parse, byId, required, KeysOf(trace[j].resolved), ids[j]);
    if item in trace[j].resolved {
      j := EntryFrom(parse, byId, required, ids, trace, j, item);
    }
  }

  lemma RefusalIff(parse: string -> Url, byId: ById, required: ByKey, ids: seq<string>, i: nat, keys: set<KeyTuple>, issue: Issue)
    requires i < |ids| && (ids[i] in byId ==> (KeyAt(byId, ids[i]) in keys <==> Taken(byId, required, ids, i, KeyAt(byId, ids[i]))))
    ensures Admission(parse, byId, required, keys, ids[i]) == Some(issue) <==> Refused(byId, required, ids, i, issue)
  {
    AdmissionIff(parse, byId, required, keys, ids[i]);
    if ids[i] in byId {
      AnticipatedIff(byId, required, ids, i);
    }
  }

  lemma AnticipatedIff(byId: ById, required: ByKey, ids: seq<string>, i: nat)
    requires i < |ids| && ids[i] in byId
    ensures Anticipated(byId, required, ids, i) <==> Taken(byId, required, ids, i, KeyAt(byId, ids[i]))
  {
    if Anticipated(byId, required, ids, i) {
      var j :| 0 <= j < i && Fits(byId, required, ids[j]) && SameKey(byId, ids[j], ids[i]);
      assert KeyAt(byId, ids[j]) == KeyAt(byId, ids[i]);
    }
    if Taken(byId, required, ids, i, KeyAt(byId, ids[i])) {
      var j :| 0 <= j < i && Fits(byId, required, ids[j]) && KeyAt(byId, ids[j]) == KeyAt(byId, ids[i]);
      assert SameKey(byId, ids[j], ids[i]);
    }
  }

  ghost predicate SomeRefused(byId: ById, required: ByKey, ids: seq<string>, k: nat, issue: Issue)
    requires k <= |ids|
  {
    exists i: nat :: i < k && Refused(byId, required, ids, i, issue)
  }

  ghost predicate SomeDefective(required: ByKey, items: seq<Item>, issue: Issue) {
    exists item :: item in items && Defective(required, item, issue)
  }

  /** What one turn reports. */
  lemma StepIssuesIff(parse: string -> Url, byId: ById, required: ByKey, ids: seq<string>, i: nat, b: Bindings, issue: Issue)
    requires i < |ids| && KeysAre(byId, required, ids, i, b)
    ensures issue in StepIssues(parse, byId, required, KeysOf(b.resolved), ids[i]) <==>
              || Refused(byId, required, ids, i, issue)
              || SomeDefective(required, StepEntries(parse, byId, required, KeysOf(b.resolved), ids[i]), issue)
  {
    var keys := KeysOf(b.resolved);
    RefusalIff(parse, byId, required, ids, i, keys, issue);
    if Admission(parse, byId, required, keys, ids[i]).None? {
      var item := ItemOf(parse, byId[ids[i]], ids[i]);
      ItemIssuesIff(required, item, issue);
      assert StepEntries(parse, byId, required, keys, ids[i]) == [item];
      if Defective(required, item, issue) {
        assert item in StepEntries(parse, byId, required, keys, ids[i]);
      }
    }
  }

  lemma SomeMore(required: ByKey, a: seq<Item>, b: seq<Item>, issue: Issue)
    ensures SomeDefective(required, a + b, issue) <==> SomeDefective(required, a, issue) || SomeDefective(required, b, issue)
  {
    if item :| item in a && Defective(required, item, issue) {
      assert item in a + b;
    }
    if item :| item in b && Defective(required, item, issue) {
      assert item in a + b;
    }
  }

  lemma RefusedNext(byId: ById, required: ByKey, ids: seq<string>, k: nat, issue: Issue)
    requires k < |ids|
    ensures SomeRefused(byId, required, ids, k + 1, issue) <==> SomeRefused(byId, required, ids, k, issue) || Refused(byId, required, ids, k, issue)
  {
  }

  /** What the loop has reported after `k` bindings. */
  ghost predicate IssuesAre(byId: ById, required: ByKey, ids: seq<string>, k: nat, b: Bindings, issue: Issue)
    requires k <= |ids|
  {
    issue in b.issues <==> SomeRefused(byId, required, ids, k, issue) || SomeDefective(required, b.resolved, issue)
  }

  lemma IssuesNext(parse: string -> Url, byId: ById, required: ByKey, ids: seq<string>, k: nat, b: Bindings, next: Bindings, issue: Issue)
    requires k < |ids| && KeysAre(byId, required, ids, k, b) && IsNext(parse, byId, required, ids[k], b, next)
    requires IssuesAre(byId, required, ids, k, b, issue)
    ensures IssuesAre(byId, required, ids, k + 1, next, issue)
  {
    StepIssuesIff(parse, byId, required, ids, k, b, issue);
    RefusedNext(byId, required, ids, k, issue);
    SomeMore(required, b.resolved, StepEntries(parse, byId, required, KeysOf(b.resolved), ids[k]), issue);
  }

  lemma {:induction false} IssuesTrace(parse: string -> Url, byId: ById, required: ByKey, ids: seq<string>, trace: seq<Bindings>, k: nat, issue: Issue)
    requires k <= |ids| && |trace| == |ids| + 1 && trace[0] == Bindings([], [])
    requires forall i | 0 <= i < |ids| :: IsNext(parse, byId, required, ids[i], trace[i], trace[i + 1])
    ensures KeysAre(byId, required, ids, k, trace[k]) && IssuesAre(byId, required, ids, k, trace[k], issue)
  {
    if k > 0 {
      IssuesTrace(parse, byId, required, ids, trace, k - 1, issue);
      KeysNext(parse, byId, required, ids, k - 1, trace[k - 1], trace[k]);
      IssuesNext(parse, byId, required, ids, k - 1, trace[k - 1], trace[k], issue);
    }
  }

  lemma BindingIssuesIff(parse: string -> Url, byId: ById, required: ByKey, ids: seq<string>, issue: Issue)
    ensures IssuesAre(byId, required, ids, |ids|, BindTo(parse, byId, required, ids, |ids|), issue)
  {
    var trace := BindTrace(parse, byId, required, ids);
    IssuesTrace(parse, byId, required, ids, trace, |ids|, issue);
  }

  // ---- Coverage and edges -------------------------------------------------------------------------------

  lemma {:induction false} CoverageIssuesIff(required: seq<Required>, resolved: seq<Item>, issue: Issue)
    ensures issue in CoverageIssues(required, resolved) <==>
            && issue.MissingComponent? && !Covered(resolved, issue.component, issue.name)
            && exists r :: r in required && r.component == issue.component && r.name == issue.name
  {
    if required != [] {
      var front, last := required[..|required| - 1], required[|required| - 1];
      CoverageIssuesIff(front, resolved, issue);
      assert last in required && forall r :: r in required <==> r in front || r == last;
    }
  }

  /** The dependency of the entry leads to itself or out of the manifest. */
  predicate BadEdge(item: Item, d: string, ids: set<string>, issue: Issue) {
    match issue
    case SelfCycle(x) => x == item.id && d == item.id
    case UnboundEdge(x, y) => x == item.id && y == d && d != item.id && d !in ids
    case _ => false
  }

  lemma {:induction false} EdgeIssuesOfIff(item: Item, bound: set<string>, k: nat, issue: Issue)
    requires k <= |item.dependsOn|
    ensures issue in EdgeIssuesOf(item, bound, k) <==> exists j :: 0 <= j < k && BadEdge(item, item.dependsOn[j], bound, issue)
  {
    if k > 0 {
      EdgeIssuesOfIff(item, bound, k - 1, issue);
    }
  }

  ghost predicate HasBadEdge(item: Item, ids: set<string>, issue: Issue) {
    exists d :: d in item.dependsOn && BadEdge(item, d, ids, issue)
  }

  ghost predicate SomeBadEdge(order: seq<Item>, ids: set<string>, issue: Issue) {
    exists item :: item in order && HasBadEdge(item, ids, issue)
  }

  lemma OwnEdgesIff(item: Item, bound: set<string>, issue: Issue)
    ensures issue in EdgeIssuesOf(item, bound, |item.dependsOn|) <==> HasBadEdge(item, bound, issue)
  {
    EdgeIssuesOfIff(item, bound, |item.dependsOn|, issue);
    if HasBadEdge(item, bound, issue) {
      var d :| d in item.dependsOn && BadEdge(item, d, bound, issue);
      var j :| 0 <= j < |item.dependsOn| && item.dependsOn[j] == d;
      assert BadEdge(item, item.dependsOn[j], bound, issue);
    }
    if j :| 0 <= j < |item.dependsOn| && BadEdge(item, item.dependsOn[j], bound, issue) {
      assert item.dependsOn[j] in item.dependsOn;
    }
  }

  lemma {:induction false} EdgeIssuesIff(resolved: seq<Item>, bound: set<string>, k: nat, issue: Issue)
    requires k <= |resolved|
    ensures issue in EdgeIssues(resolved, bound, k) <==> SomeBadEdge(resolved[..k], bound, issue)
  {
    if k > 0 {
      EdgeIssuesIff(resolved, bound, k - 1, issue);
      OwnEdgesIff(resolved[k - 1], bound, issue);
      assert resolved[..k] == resolved[..k - 1] + [resolved[k - 1]];
      assert forall item :: item in resolved[..k] <==> item in resolved[..k - 1] || item == resolved[k - 1];
    }
  }

  // ---- Every issue of a manifest ------------------------------------------------------------------------

  /** No entry is for the required component. */
  ghost predicate Uncovered(required: seq<Required>, order: seq<Item>, component: string, name: string) {
    && (exists r :: r in required && r.component == component && r.name == name)
    && (forall item | item in order :: !(item.component == component && item.name == name))
  }

  predicate OfArtifact(issue: Issue) {
    || issue.MissingArtifact? || issue.UnexpectedComponent? || issue.InvalidDependencyKey? || issue.DuplicateDependencyKey?
    || issue.VersionMismatch? || issue.UnsafeOfflineReference? || issue.ArtifactNotMirrored? || issue.DuplicateEdge?
  }

  /** There is the defect that the issue names; cycles are apart. */
  ghost predicate Found(required: seq<Required>, ids: seq<string>, byId: ById, order: seq<Item>, issue: Issue) {
    if issue.DuplicateBinding? then exists i, j | 0 <= i < j < |ids| :: ids[i] == ids[j]
    else if issue.MissingComponent? then Uncovered(required, order, issue.component, issue.name)
    else if issue.SelfCycle? || issue.UnboundEdge? then SomeBadEdge(order, IdsIn(order), issue)
    else OfArtifact(issue) && (SomeRefused(byId, RequiredMap(required), ids, |ids|, issue) || SomeDefective(RequiredMap(required), order, issue))
  }

  lemma RefusedKind(byId: ById, required: ByKey, ids: seq<string>, k: nat, issue: Issue)
    requires k <= |ids| && SomeRefused(byId, required, ids, k, issue)
    ensures OfArtifact(issue)
  {
  }

  lemma DefectiveKind(required: ByKey, items: seq<Item>, issue: Issue)
    requires SomeDefective(required, items, issue)
    ensures OfArtifact(issue)
  {
  }

  lemma BadEdgeKind(order: seq<Item>, ids: set<string>, issue: Issue)
    requires SomeBadEdge(order, ids, issue)
    ensures issue.SelfCycle? || issue.UnboundEdge?
  {
  }

  lemma UncoveredIff(required: seq<Required>, resolved: seq<Item>, order: seq<Item>, issue: Issue)
    requires forall item :: item in order <==> item in resolved
    ensures issue in CoverageIssues(required, resolved) <==> issue.MissingComponent? && Uncovered(required, order, issue.component, issue.name)
  {
    CoverageIssuesIff(required, resolved, issue);
  }

  lemma LocalIff(ids: seq<string>, required: seq<Required>, b: Bindings, issue: Issue)
    requires !issue.DependencyCycle?
    ensures issue in LocalIssues(ids, required, b) + CycleIssue(ItemsById(b.resolved)) <==>
            || (issue == DuplicateBinding && HasDuplicates(ids)) || issue in b.issues || issue in CoverageIssues(required, b.resolved)
            || issue in EdgeIssues(b.resolved, ItemsById(b.resolved).Keys, |b.resolved|)
  {
    InSum(if HasDuplicates(ids) then [DuplicateBinding] else [], b.issues, CoverageIssues(required, b.resolved),
          EdgeIssues(b.resolved, ItemsById(b.resolved).Keys, |b.resolved|), issue);
  }

  lemma SameItems(a: seq<Item>, b: seq<Item>, required: ByKey, bound: set<string>, issue: Issue)
    requires forall item :: item in a <==> item in b
    ensures SomeDefective(required, a, issue) <==> SomeDefective(required, b, issue)
    ensures SomeBadEdge(a, bound, issue) <==> SomeBadEdge(b, bound, issue)
    ensures IdsIn(a) == IdsIn(b)
  {
  }

  /** Every kind of issue comes from one place. */
  lemma Combine(required: seq<Required>, ids: seq<string>, byId: ById, order: seq<Item>, issue: Issue)
    requires !issue.DependencyCycle?
    ensures Found(required, ids, byId, order, issue) <==>
              || (issue == DuplicateBinding && HasDuplicates(ids))
              || SomeRefused(byId, RequiredMap(required), ids, |ids|, issue) || SomeDefective(RequiredMap(required), order, issue)
              || (issue.MissingComponent? && Uncovered(required, order, issue.component, issue.name))
              || SomeBadEdge(order, IdsIn(order), issue)
  {
    if SomeRefused(byId, RequiredMap(required), ids, |ids|, issue) {
      RefusedKind(byId, RequiredMap(required), ids, |ids|, issue);
    }
    if SomeDefective(RequiredMap(required), order, issue) {
      DefectiveKind(RequiredMap(required), order, issue);
    }
    if SomeBadEdge(order, IdsIn(order), issue) {
      BadEdgeKind(order, IdsIn(order), issue);
    }
  }

  /** The issue is reported exactly where there is the defect among these entries. */
  lemma FoundIff(required: seq<Required>, ids: seq<string>, byId: ById, b: Bindings, order: seq<Item>, issue: Issue)
    requires !issue.DependencyCycle? && forall item :: item in order <==> item in b.resolved
    requires IssuesAre(byId, RequiredMap(required), ids, |ids|, b, issue)
    requires ItemsById(b.resolved).Keys == IdsIn(b.resolved)
    ensures issue in LocalIssues(ids, required, b) + CycleIssue(ItemsById(b.resolved)) <==> Found(required, ids, byId, order, issue)
  {
    var bound := ItemsById(b.resolved).Keys;
    LocalIff(ids, required, b, issue);
    UncoveredIff(required, b.resolved, order, issue);
    EdgeIssuesIff(b.resolved, bound, |b.resolved|, issue);
    assert b.resolved[..|b.resolved|] == b.resolved;
    SameItems(order, b.resolved, RequiredMap(required), bound, issue);
    Combine(required, ids, byId, order, issue);
  }

  /** A manifest reports an issue, cycles apart, exactly where there is the defect it names. */
  lemma IssueIff(parse: string -> Url, digest: ManifestBody -> string, bp: ClusterBlueprint, artifacts: seq<Artifact>, issue: Issue)
    requires !issue.DependencyCycle?
    ensures var body := Resolve(parse, digest, bp, artifacts).body;
            issue in body.issues <==>
            Found(RequiredComponents(bp), bp.artifactDependencies, ArtifactsById(artifacts), body.dependencyOrder, issue)
  {
    var b, byId, ids := BindingsOf(parse, bp, artifacts), ArtifactsById(artifacts), bp.artifactDependencies;
    OrderIsResolved(parse, digest, bp, artifacts);
    EntriesKeyed(parse, bp, artifacts);
    BindingIssuesIff(parse, byId, RequiredMap(RequiredComponents(bp)), ids, issue);
    FoundIff(RequiredComponents(bp), ids, byId, b, Resolve(parse, digest, bp, artifacts).body.dependencyOrder, issue);
  }
}
