/**
  The blueprint artifact resolver
  (control-plane/src/hermes_control_plane/cluster_factory.py:164-330).

  `Resolve` is the reference meaning of a resolution; `ResolveManifest` is the loop of the
  source, proved to compute it. URL parsing and hashing are parameters: `parse` is
  `urllib.parse.urlparse`, `digest` is `sha256_hex` of the manifest without its hash.
 */
module Blueprint {
  import opened Ordering
  import opened Kahn
  import Text
  import opened Wrappers

  /** The parts of a parsed URL that the checks read. */
  datatype Url = Url(scheme: string, netloc: string, path: string, query: string, fragment: string, hasUsername: bool, hasPassword: bool)

  datatype Verification = Verification(status: string, syncState: string, verificationId: Option<string>, observedAt: Option<int>)

  datatype Artifact = Artifact(id: string, kind: string, version: string, digest: string, destination: string,
                               labels: map<string, string>, verification: Option<Verification>)

  datatype ClusterBlueprint = ClusterBlueprint(id: string, name: string, provider: string, providerVersion: string,
                                               kubernetesVersion: string, hubbleEnabled: bool, radarEnabled: bool,
                                               addonDefaults: seq<string>, addonVersions: map<string, string>,
                                               artifactDependencies: seq<string>)

  datatype Required = Required(component: string, name: string, version: string)

  datatype Issue =
    | DuplicateBinding
    | MissingArtifact(id: string)
    | UnexpectedComponent(id: string)
    | InvalidDependencyKey(id: string)
    | DuplicateDependencyKey(id: string)
    | VersionMismatch(id: string)
    | UnsafeOfflineReference(id: string)
    | ArtifactNotMirrored(id: string)
    | DuplicateEdge(id: string)
    | MissingComponent(component: string, name: string)
    | SelfCycle(id: string)
    | UnboundEdge(id: string, dependency: string)
    | DependencyCycle(ids: seq<string>)
  {
    /** `issue.get("artifact_id")`, where it is present and not empty. */
    predicate Names(artifactId: string) {
      match this
      case DuplicateBinding | MissingComponent(_, _) | DependencyCycle(_) => false
      case _ => id == artifactId && artifactId != ""
    }
  }

  /** An entry of `dependency_order`. */
  datatype Item = Item(id: string, component: string, name: string, dependencyKey: string, kind: string, version: string,
                       digest: string, offlineReference: Option<string>, dependsOn: seq<string>, mirrored: bool,
                       verificationId: Option<string>, observedAt: Option<int>)

  datatype ManifestState = READY | BLOCKED

  datatype ManifestBody = ManifestBody(blueprintId: string, blueprintName: string, state: ManifestState,
                                       requiredComponents: seq<Required>, boundArtifactIds: seq<string>,
                                       dependencyOrder: seq<Item>, issues: seq<Issue>, resumeFrom: Option<string>,
                                       referenceSelection: string, credentialMaterial: bool, rewriteApplied: bool)

  datatype Manifest = Manifest(body: ManifestBody, manifestHash: string)

  // ---- Required components and references -------------------------------------------------

  const ADDON_CATALOG: seq<string> := [
    "cilium", "hubble", "kube-vip", "metallb", "local-path-storage", "longhorn", "ingress-nginx", "cert-manager",
    "argocd", "kube-prometheus-stack", "grafana", "loki", "opencost", "velero", "radar", "hermes-agent"]

  function RequestedAddons(bp: ClusterBlueprint): seq<string> {
    ["cilium", "hermes-agent"]
    + (if bp.hubbleEnabled then ["hubble"] else [])
    + (if bp.radarEnabled then ["radar"] else [])
    + bp.addonDefaults
  }

  function VersionOf(versions: map<string, string>, name: string): string {
    if name in versions then versions[name] else ""
  }

  function AddonComponents(names: seq<string>, versions: map<string, string>): (r: seq<Required>)
    ensures |r| == |names|
    ensures forall i | 0 <= i < |names| :: r[i] == Required("addon", names[i], VersionOf(versions, names[i]))
  {
    if names == [] then []
    else [Required("addon", names[0], VersionOf(versions, names[0]))] + AddonComponents(names[1..], versions)
  }

  function RequiredFrom(bp: ClusterBlueprint, catalog: seq<string>): seq<Required> {
    var requested := RequestedAddons(bp);
    [Required("provider", bp.provider, bp.providerVersion), Required("kubernetes", "kubernetes", bp.kubernetesVersion)]
    + AddonComponents(Select(catalog, name => name in requested), bp.addonVersions)
  }

  /** `blueprint_required_artifact_components`: provider, Kubernetes, then the add-ons in catalog order. */
  function RequiredComponents(bp: ClusterBlueprint): seq<Required> {
    RequiredFrom(bp, ADDON_CATALOG)
  }

  lemma AddonComponentsAre(names: seq<string>, versions: map<string, string>, r: Required)
    ensures r in AddonComponents(names, versions) <==>
            r.component == "addon" && r.name in names && r.version == VersionOf(versions, r.name)
  {
    var addons := AddonComponents(names, versions);
    if r.component == "addon" && r.name in names && r.version == VersionOf(versions, r.name) {
      var i :| 0 <= i < |names| && names[i] == r.name;
      assert addons[i] == r;
    }
  }

  /** What is required is the provider, Kubernetes and each catalogued add-on asked for, at its pinned version. */
  lemma RequiredComponentsAre(bp: ClusterBlueprint, catalog: seq<string>, r: Required)
    ensures r in RequiredFrom(bp, catalog) <==>
            || r == Required("provider", bp.provider, bp.providerVersion)
            || r == Required("kubernetes", "kubernetes", bp.kubernetesVersion)
            || (&& r.component == "addon" && r.name in catalog && r.name in RequestedAddons(bp)
                && r.version == VersionOf(bp.addonVersions, r.name))
  {
    var requested := RequestedAddons(bp);
    AddonComponentsAre(Select(catalog, name => name in requested), bp.addonVersions, r);
  }

  /** The add-ons there are. */
  const ADDONS := {
    "cilium", "hubble", "kube-vip", "metallb", "local-path-storage", "longhorn", "ingress-nginx", "cert-manager",
    "argocd", "kube-prometheus-stack", "grafana", "loki", "opencost", "velero", "radar", "hermes-agent"
  }

  lemma CatalogHolds(name: string)
    ensures name in ADDON_CATALOG <==> name in ADDONS
  {
  }

  /** An add-on is asked for by default, by the blueprint's switches, or by name. */
  predicate AskedFor(bp: ClusterBlueprint, name: string) {
    || name == "cilium" || name == "hermes-agent" || (name == "hubble" && bp.hubbleEnabled) || (name == "radar" && bp.radarEnabled)
    || name in bp.addonDefaults
  }

  lemma RequestedIff(bp: ClusterBlueprint, name: string)
    ensures name in RequestedAddons(bp) <==> AskedFor(bp, name)
  {
    assert ["cilium", "hermes-agent"][0] == "cilium" && ["cilium", "hermes-agent"][1] == "hermes-agent";
    assert ["hubble"][0] == "hubble" && ["radar"][0] == "radar";
  }

  /** An add-on is required exactly if it is in the catalog and asked for, at the version pinned for it. */
  lemma AddonRequiredIff(bp: ClusterBlueprint, name: string, version: string)
    ensures Required("addon", name, version) in RequiredComponents(bp) <==>
            name in ADDONS && AskedFor(bp, name) && version == if name in bp.addonVersions then bp.addonVersions[name] else ""
  {
    RequiredComponentsAre(bp, ADDON_CATALOG, Required("addon", name, version));
    CatalogHolds(name);
    RequestedIff(bp, name);
  }

  predicate OfflineReferenceOk(u: Url) {
    && !u.hasUsername && !u.hasPassword
    && u.query == "" && u.fragment == ""
    && (|| (u.scheme == "file" && u.netloc == "" && "/" <= u.path)
        || (u.scheme == "oci" && u.netloc != "" && exists c | c in u.path :: c != '/'))
  }

  /** `_artifact_offline_reference`: the destination, or none where one of its checks fails. */
  function OfflineReference(parse: string -> Url, destination: string): (r: Option<string>)
    ensures r.Some? <==> OfflineReferenceOk(parse(destination))
    ensures r.Some? ==> r.value == destination
  {
    var u := parse(destination);
    if u.hasUsername || u.hasPassword then None
    else if u.scheme != "file" && u.scheme != "oci" then None
    else if u.query != "" || u.fragment != "" then None
    else if u.scheme == "file" && (u.netloc != "" || !("/" <= u.path)) then None
    else if u.scheme == "oci" && (u.netloc == "" || forall c | c in u.path :: c == '/') then None
    else Some(destination)
  }

  /** `required_map`: the required components by (component, name). */
  function RequiredMap(required: seq<Required>): map<(string, string), Required> {
    if required == [] then map[]
    else
      var last := required[|required| - 1];
      RequiredMap(required[..|required| - 1])[(last.component, last.name) := last]
  }

  /** `by_id`: the artifacts by id; a later one replaces an earlier one. */
  function ArtifactsById(artifacts: seq<Artifact>): map<string, Artifact> {
    if artifacts == [] then map[]
    else
      var last := artifacts[|artifacts| - 1];
      ArtifactsById(artifacts[..|artifacts| - 1])[last.id := last]
  }

  // ---- One binding ------------------------------------------------------------------------

  const COMPONENT_LABEL := "blueprint_component"
  const NAME_LABEL := "blueprint_name"
  const KEY_LABEL := "dependency_key"
  const DEPENDS_ON_LABEL := "depends_on"

  function Label(a: Artifact, key: string): string {
    if key in a.labels then a.labels[key] else ""
  }

  predicate Mirrored(a: Artifact) {
    a.verification.Some? && a.verification.value.status == "PASS" && a.verification.value.syncState == "MIRRORED"
  }

  /** The manifest entry of an artifact bound as `id`. */
  function ItemOf(parse: string -> Url, a: Artifact, id: string): Item {
    Item(id, Label(a, COMPONENT_LABEL), Label(a, NAME_LABEL), Label(a, KEY_LABEL), a.kind, a.version, a.digest,
         OfflineReference(parse, a.destination), Text.DependencyList(Label(a, DEPENDS_ON_LABEL)), Mirrored(a),
         if a.verification.Some? then a.verification.value.verificationId else None,
         if a.verification.Some? then a.verification.value.observedAt else None)
  }

  type KeyTuple = (string, string, string)

  function KeyTupleOf(item: Item): KeyTuple {
    (item.component, item.name, item.dependencyKey)
  }

  /** Whether the bound artifact gets a manifest entry at all; otherwise the one issue raised for it. */
  function Admission(parse: string -> Url, byId: map<string, Artifact>, required: map<(string, string), Required>,
                     keys: set<KeyTuple>, id: string): (refusal: Option<Issue>)
    ensures refusal.None? ==> id in byId
    ensures refusal.None? ==> var item := ItemOf(parse, byId[id], id); (item.component, item.name) in required
    ensures refusal.Some? ==> !refusal.value.DependencyCycle?
  {
    if id !in byId then Some(MissingArtifact(id))
    else
      var item := ItemOf(parse, byId[id], id);
      if (item.component, item.name) !in required then Some(UnexpectedComponent(id))
      else if item.dependencyKey == "" || |item.dependencyKey| > 120 then Some(InvalidDependencyKey(id))
      else if KeyTupleOf(item) in keys then Some(DuplicateDependencyKey(id))
      else None
  }

  predicate HasDuplicates(s: seq<string>) {
    exists i, j | 0 <= i < j < |s| :: s[i] == s[j]
  }

  /** The issues of an admitted entry. */
  function ItemIssues(item: Item, requiredVersion: string): (issues: seq<Issue>)
    ensures forall i | 0 <= i < |issues| :: !issues[i].DependencyCycle?
  {
    (if item.version != requiredVersion then [VersionMismatch(item.id)] else [])
    + (if item.offlineReference.None? then [UnsafeOfflineReference(item.id)] else [])
    + (if !item.mirrored then [ArtifactNotMirrored(item.id)] else [])
    + (if HasDuplicates(item.dependsOn) then [DuplicateEdge(item.id)] else [])
  }

  /** Entries and issues after the first `k` bound ids. */
  datatype Bindings = Bindings(resolved: seq<Item>, issues: seq<Issue>)

  function KeysOf(resolved: seq<Item>): set<KeyTuple> {
    set item | item in resolved :: KeyTupleOf(item)
  }

  /** What one bound id adds to the issues, given the entries admitted before it. */
  function StepIssues(parse: string -> Url, byId: map<string, Artifact>, required: map<(string, string), Required>,
                      keys: set<KeyTuple>, id: string): (issues: seq<Issue>)
    ensures forall i | 0 <= i < |issues| :: !issues[i].DependencyCycle?
  {
    var refusal := Admission(parse, byId, required, keys, id);
    if refusal.Some? then [refusal.value]
    else
      var item := ItemOf(parse, byId[id], id);
      ItemIssues(item, required[(item.component, item.name)].version)
  }

  /** What it adds to the entries: itself, if it is admitted. */
  function StepEntries(parse: string -> Url, byId: map<string, Artifact>, required: map<(string, string), Required>,
                       keys: set<KeyTuple>, id: string): seq<Item>
  {
    if Admission(parse, byId, required, keys, id).Some? then [] else [ItemOf(parse, byId[id], id)]
  }

  function BindTo(parse: string -> Url, byId: map<string, Artifact>, required: map<(string, string), Required>,
                  ids: seq<string>, k: nat): Bindings
    requires k <= |ids|
  {
    if k == 0 then Bindings([], [])
    else
      var b := BindTo(parse, byId, required, ids, k - 1);
      var keys := KeysOf(b.resolved);
      Bindings(b.resolved + StepEntries(parse, byId, required, keys, ids[k - 1]),
               b.issues + StepIssues(parse, byId, required, keys, ids[k - 1]))
  }

  /** A component's count is zero exactly while no entry is bound for it. */
  ghost predicate CoverageCounts(coverage: map<(string, string), nat>, required: map<(string, string), Required>, resolved: seq<Item>) {
    && coverage.Keys == required.Keys
    && forall key {:trigger coverage[key]} | key in required ::
         coverage[key] == 0 <==> forall i | 0 <= i < |resolved| :: (resolved[i].component, resolved[i].name) != key
  }

  lemma CountOneMore(coverage: map<(string, string), nat>, required: map<(string, string), Required>, resolved: seq<Item>, item: Item)
    requires CoverageCounts(coverage, required, resolved) && (item.component, item.name) in required
    ensures var key := (item.component, item.name);
            CoverageCounts(coverage[key := coverage[key] + 1], required, resolved + [item])
  {
    var key := (item.component, item.name);
    var next := coverage[key := coverage[key] + 1];
    var after := resolved + [item];
    assert (after[|resolved|].component, after[|resolved|].name) == key;
    forall other | other in required && other != key
      ensures next[other] == 0 <==> forall i | 0 <= i < |after| :: (after[i].component, after[i].name) != other
    {
      assert coverage[other] == next[other];
      assert forall i | 0 <= i < |resolved| :: after[i] == resolved[i];
    }
  }

  /** One turn of the binding loop. */
  method BindOne(parse: string -> Url, byId: map<string, Artifact>, required: map<(string, string), Required>, id: string,
                 resolved0: seq<Item>, keys0: set<KeyTuple>, coverage0: map<(string, string), nat>)
      returns (resolved: seq<Item>, keys: set<KeyTuple>, coverage: map<(string, string), nat>, added: seq<Issue>)
    requires keys0 == KeysOf(resolved0) && CoverageCounts(coverage0, required, resolved0)
    ensures resolved == resolved0 + StepEntries(parse, byId, required, keys0, id)
    ensures added == StepIssues(parse, byId, required, keys0, id)
    ensures keys == KeysOf(resolved) && CoverageCounts(coverage, required, resolved)
  {
    resolved, keys, coverage := resolved0, keys0, coverage0;
    var refusal := Admission(parse, byId, required, keys0, id);
    if refusal.Some? {
      added := [refusal.value];
    } else {
      var item := ItemOf(parse, byId[id], id);
      var key := (item.component, item.name);
      keys := keys + {KeyTupleOf(item)};
      CountOneMore(coverage0, required, resolved0, item);
      coverage := coverage[key := coverage[key] + 1];
      added := ItemIssues(item, required[key].version);
      resolved := resolved + [item];
    }
  }

  /** The binding loop of the source. */
  method BindArtifacts(parse: string -> Url, byId: map<string, Artifact>, required: map<(string, string), Required>, ids: seq<string>)
      returns (resolved: seq<Item>, issues: seq<Issue>, coverage: map<(string, string), nat>)
    ensures Bindings(resolved, issues) == BindTo(parse, byId, required, ids, |ids|)
    ensures CoverageCounts(coverage, required, resolved)
  {
    resolved, issues := [], [];
    coverage := map key | key in required :: 0;
    var dependencyKeys: set<KeyTuple> := {};
    for k := 0 to |ids|
      invariant Bindings(resolved, issues) == BindTo(parse, byId, required, ids, k)
      invariant dependencyKeys == KeysOf(resolved)
      invariant CoverageCounts(coverage, required, resolved)
    {
      var added;
      resolved, dependencyKeys, coverage, added := BindOne(parse, byId, required, ids[k], resolved, dependencyKeys, coverage);
      issues := issues + added;
    }
  }

  // ---- Coverage, edges, order -------------------------------------------------------------

  predicate Covered(resolved: seq<Item>, component: string, name: string) {
    exists item | item in resolved :: item.component == component && item.name == name
  }

  /** One issue per required component that nothing is bound for. */
  function CoverageIssues(required: seq<Required>, resolved: seq<Item>): (issues: seq<Issue>)
    ensures forall issue | issue in issues :: issue.MissingComponent?
  {
    if required == [] then []
    else
      var last := required[|required| - 1];
      CoverageIssues(required[..|required| - 1], resolved)
      + if Covered(resolved, last.component, last.name) then [] else [MissingComponent(last.component, last.name)]
  }

  /** `resolved_by_id`. */
  function ItemsById(resolved: seq<Item>): map<string, Item> {
    if resolved == [] then map[]
    else
      var last := resolved[|resolved| - 1];
      ItemsById(resolved[..|resolved| - 1])[last.id := last]
  }

  /** Self-edges and edges out of the bound set, among the first `k` entries of one list. */
  function EdgeIssuesOf(item: Item, bound: set<string>, k: nat): seq<Issue>
    requires k <= |item.dependsOn|
  {
    if k == 0 then []
    else
      var d := item.dependsOn[k - 1];
      EdgeIssuesOf(item, bound, k - 1)
      + (if d == item.id then [SelfCycle(item.id)] else if d !in bound then [UnboundEdge(item.id, d)] else [])
  }

  function EdgeIssues(resolved: seq<Item>, bound: set<string>, k: nat): seq<Issue>
    requires k <= |resolved|
  {
    if k == 0 then []
    else EdgeIssues(resolved, bound, k - 1) + EdgeIssuesOf(resolved[k - 1], bound, |resolved[k - 1].dependsOn|)
  }

  function ComponentRank(component: string): string {
    if component == "provider" then "0"
    else if component == "kubernetes" then "1"
    else if component == "addon" then "2"
    else "9"
  }

  function NodeOf(item: Item): Node {
    Node(ComponentRank(item.component), item.name, item.dependencyKey, item.dependsOn)
  }

  function GraphOf(items: map<string, Item>): Graph {
    map id | id in items :: NodeOf(items[id])
  }

  /** `[resolved_by_id[id] for id in ids]`. */
  function Entries(items: map<string, Item>, ids: seq<string>): (r: seq<Item>)
    requires forall i | 0 <= i < |ids| :: ids[i] in items
    ensures |r| == |ids| && forall i | 0 <= i < |ids| :: r[i] == items[ids[i]]
  {
    seq(|ids|, i requires 0 <= i < |ids| => items[ids[i]])
  }

  predicate NamedBy(issues: seq<Issue>, id: string) {
    exists issue | issue in issues :: issue.Names(id)
  }

  /** The first entry that is not mirrored or that an issue names. */
  function ResumePoint(order: seq<Item>, issues: seq<Issue>): Option<string> {
    if order == [] then None
    else if !order[0].mirrored || NamedBy(issues, order[0].id) then Some(order[0].id)
    else ResumePoint(order[1..], issues)
  }

  /** A set of ids in plain string order. */
  ghost function PlainOrder(s: set<string>): seq<string> {
    InKeyOrder(map[], s)
  }

  lemma PlainOrderIs(s: set<string>, ids: seq<string>)
    requires Increasing(StrLess, ids) && Elems(ids) == s
    ensures ids == PlainOrder(s)
  {
    InKeyOrderIncreasing(map[], s);
    BeforeStrictTotal(map[]);
    assert forall a, b :: Less(map[])(a, b) == StrLess(a, b);
    IncreasingUnique(Less(map[]), ids, PlainOrder(s));
  }

  // ---- The whole resolution ---------------------------------------------------------------

  ghost function BindingsOf(parse: string -> Url, bp: ClusterBlueprint, artifacts: seq<Artifact>): Bindings {
    BindTo(parse, ArtifactsById(artifacts), RequiredMap(RequiredComponents(bp)), bp.artifactDependencies, |bp.artifactDependencies|)
  }

  /** Every issue but the cycle report, in the order the source appends them. */
  ghost function LocalIssues(bound: seq<string>, required: seq<Required>, b: Bindings): seq<Issue> {
    (if HasDuplicates(bound) then [DuplicateBinding] else [])
    + b.issues
    + CoverageIssues(required, b.resolved)
    + EdgeIssues(b.resolved, ItemsById(b.resolved).Keys, |b.resolved|)
  }

  ghost function CycleIssue(items: map<string, Item>): seq<Issue> {
    var stuck := Stuck(GraphOf(items));
    if stuck != {} then [DependencyCycle(PlainOrder(stuck))] else []
  }

  ghost function IssuesOf(bp: ClusterBlueprint, b: Bindings): seq<Issue> {
    LocalIssues(bp.artifactDependencies, RequiredComponents(bp), b) + CycleIssue(ItemsById(b.resolved))
  }

  lemma PublishedOrderIn(g: Graph)
    ensures forall i | 0 <= i < |PublishedOrder(g)| :: PublishedOrder(g)[i] in g
  {
    forall i | 0 <= i < |PublishedOrder(g)|
      ensures PublishedOrder(g)[i] in g
    {
      var emitted, rest := Greedy(g, {}), InKeyOrder(g, Stuck(g));
      if i < |emitted| {
        assert emitted[i] in Elems(emitted);
      } else {
        assert rest[i - |emitted|] in Elems(rest);
      }
    }
  }

  ghost function OrderOf(b: Bindings): seq<Item> {
    var items := ItemsById(b.resolved);
    PublishedOrderIn(GraphOf(items));
    Entries(items, PublishedOrder(GraphOf(items)))
  }

  ghost function Resolve(parse: string -> Url, digest: ManifestBody -> string, bp: ClusterBlueprint, artifacts: seq<Artifact>): Manifest {
    var b := BindingsOf(parse, bp, artifacts);
    var issues := IssuesOf(bp, b);
    var body := ManifestBody(bp.id, bp.name, if issues == [] then READY else BLOCKED, RequiredComponents(bp),
                             bp.artifactDependencies, OrderOf(b), issues, ResumePoint(OrderOf(b), issues),
                             "verified-destination-only", false, false);
    Manifest(body, digest(body))
  }

  // ---- The loops of the source ------------------------------------------------------------

  method FindMissingComponents(required: seq<Required>, resolved: seq<Item>, ghost byKey: map<(string, string), Required>, coverage: map<(string, string), nat>)
      returns (issues: seq<Issue>)
    requires byKey == RequiredMap(required) && CoverageCounts(coverage, byKey, resolved)
    ensures issues == CoverageIssues(required, resolved)
  {
    issues := [];
    for k := 0 to |required|
      invariant issues == CoverageIssues(required[..k], resolved)
    {
      var r := required[k];
      RequiredMapHas(required, k);
      assert required[..k + 1][..k] == required[..k];
      if coverage[(r.component, r.name)] == 0 {
        issues := issues + [MissingComponent(r.component, r.name)];
      }
    }
    assert required[..|required|] == required;
  }

  lemma {:induction false} RequiredMapHas(required: seq<Required>, k: nat)
    requires k < |required|
    ensures (required[k].component, required[k].name) in RequiredMap(required)
  {
    if k < |required| - 1 {
      RequiredMapHas(required[..|required| - 1], k);
    }
  }

  method FindEdgeIssues(resolved: seq<Item>, items: map<string, Item>) returns (issues: seq<Issue>)
    ensures issues == EdgeIssues(resolved, items.Keys, |resolved|)
  {
    issues := [];
    for k := 0 to |resolved|
      invariant issues == EdgeIssues(resolved, items.Keys, k)
    {
      var item := resolved[k];
      var found: seq<Issue> := [];
      for j := 0 to |item.dependsOn|
        invariant found == EdgeIssuesOf(item, items.Keys, j)
      {
        var d := item.dependsOn[j];
        if d == item.id {
          found := found + [SelfCycle(item.id)];
        } else if d !in items {
          found := found + [UnboundEdge(item.id, d)];
        }
      }
      issues := issues + found;
    }
  }

  method FindResumePoint(order: seq<Item>, issues: seq<Issue>) returns (r: Option<string>)
    ensures r == ResumePoint(order, issues)
  {
    for k := 0 to |order|
      invariant ResumePoint(order, issues) == ResumePoint(order[k..], issues)
    {
      if !order[k].mirrored || NamedBy(issues, order[k].id) {
        return Some(order[k].id);
      }
      assert order[k..][1..] == order[k + 1..];
    }
    return None;
  }

  method IndexItems(resolved: seq<Item>) returns (ids: seq<string>, items: map<string, Item>)
    ensures items == ItemsById(resolved)
    ensures |ids| == |resolved| && forall k | 0 <= k < |ids| :: ids[k] == resolved[k].id
    ensures Elems(ids) == items.Keys
  {
    ids, items := [], map[];
    for k := 0 to |resolved|
      invariant items == ItemsById(resolved[..k])
      invariant |ids| == k && forall j | 0 <= j < k :: ids[j] == resolved[j].id
      invariant Elems(ids) == items.Keys
    {
      assert resolved[..k + 1][..k] == resolved[..k];
      ids := ids + [resolved[k].id];
      items := items[resolved[k].id := resolved[k]];
    }
    assert resolved[..|resolved|] == resolved;
  }

  // ---- Each bound artifact appears once ---------------------------------------------------

  ghost predicate BoundEntries(parse: string -> Url, byId: map<string, Artifact>, resolved: seq<Item>) {
    && (forall i | 0 <= i < |resolved| :: resolved[i].id in byId && resolved[i] == ItemOf(parse, byId[resolved[i].id], resolved[i].id))
    && (forall i, j | 0 <= i < j < |resolved| :: KeyTupleOf(resolved[i]) != KeyTupleOf(resolved[j]))
  }

  lemma {:induction false} ResolvedAreBound(parse: string -> Url, byId: map<string, Artifact>, required: map<(string, string), Required>, ids: seq<string>, k: nat)
    requires k <= |ids|
    ensures BoundEntries(parse, byId, BindTo(parse, byId, required, ids, k).resolved)
  {
    if k > 0 {
      ResolvedAreBound(parse, byId, required, ids, k - 1);
      BoundStep(parse, byId, required, BindTo(parse, byId, required, ids, k - 1).resolved, ids[k - 1]);
      ResolvedNext(parse, byId, required, ids, k - 1);
    }
  }

  lemma ResolvedNext(parse: string -> Url, byId: map<string, Artifact>, required: map<(string, string), Required>, ids: seq<string>, k: nat)
    requires k < |ids|
    ensures var resolved := BindTo(parse, byId, required, ids, k).resolved;
            BindTo(parse, byId, required, ids, k + 1).resolved == resolved + StepEntries(parse, byId, required, KeysOf(resolved), ids[k])
  {
  }

  lemma BoundStep(parse: string -> Url, byId: map<string, Artifact>, required: map<(string, string), Required>, resolved: seq<Item>, id: string)
    requires BoundEntries(parse, byId, resolved)
    ensures BoundEntries(parse, byId, resolved + StepEntries(parse, byId, required, KeysOf(resolved), id))
  {
    if Admission(parse, byId, required, KeysOf(resolved), id).None? {
      var item := ItemOf(parse, byId[id], id);
      assert forall i | 0 <= i < |resolved| :: KeyTupleOf(resolved[i]) in KeysOf(resolved);
      assert KeyTupleOf(item) !in KeysOf(resolved);
      assert resolved + [item] == resolved + StepEntries(parse, byId, required, KeysOf(resolved), id);
    } else {
      assert resolved + StepEntries(parse, byId, required, KeysOf(resolved), id) == resolved;
    }
  }

  /** Even with an id bound twice, no two entries share an id. */
  lemma EntryIdsDistinct(parse: string -> Url, byId: map<string, Artifact>, resolved: seq<Item>)
    requires BoundEntries(parse, byId, resolved)
    ensures forall i, j | 0 <= i < j < |resolved| :: resolved[i].id != resolved[j].id
  {
    forall i, j | 0 <= i < j < |resolved|
      ensures resolved[i].id != resolved[j].id
    {
      assert KeyTupleOf(resolved[i]) != KeyTupleOf(resolved[j]);
    }
  }

  /** The binding, coverage and edge loops in sequence. */
  method CollectEntries(parse: string -> Url, byId: map<string, Artifact>, required: seq<Required>, bound: seq<string>)
      returns (resolved: seq<Item>, issues: seq<Issue>, ids: seq<string>, items: map<string, Item>)
    ensures var b := BindTo(parse, byId, RequiredMap(required), bound, |bound|);
            resolved == b.resolved && issues == LocalIssues(bound, required, b)
    ensures items == ItemsById(resolved) && Elems(ids) == items.Keys && Distinct(ids)
  {
    var byKey := RequiredMap(required);
    issues := if HasDuplicates(bound) then [DuplicateBinding] else [];
    var bindingIssues, coverage;
    resolved, bindingIssues, coverage := BindArtifacts(parse, byId, byKey, bound);
    var missing := FindMissingComponents(required, resolved, byKey, coverage);
    ids, items := IndexItems(resolved);
    var edgeIssues := FindEdgeIssues(resolved, items);
    issues := issues + bindingIssues + missing + edgeIssues;
    ResolvedAreBound(parse, byId, byKey, bound, |bound|);
    EntryIdsDistinct(parse, byId, resolved);
  }

  /** The dependency order and, where there is one, the cycle report. */
  method OrderEntries(ids: seq<string>, items: map<string, Item>) returns (ordered: seq<Item>, report: seq<Issue>)
    requires Elems(ids) == items.Keys && Distinct(ids)
    ensures (forall i | 0 <= i < |PublishedOrder(GraphOf(items))| :: PublishedOrder(GraphOf(items))[i] in items)
            && ordered == Entries(items, PublishedOrder(GraphOf(items)))
    ensures report == CycleIssue(items)
  {
    var orderedIds, cyclic, cycleIds := OrderDependencies(ids, GraphOf(items));
    report := [];
    if cyclic {
      PlainOrderIs(Stuck(GraphOf(items)), cycleIds);
      report := [DependencyCycle(cycleIds)];
    }
    PublishedOrderIn(GraphOf(items));
    ordered := Entries(items, orderedIds);
  }

  /** `resolve_blueprint_artifact_manifest`. */
  method ResolveManifest(parse: string -> Url, digest: ManifestBody -> string, bp: ClusterBlueprint, artifacts: seq<Artifact>)
      returns (m: Manifest)
    ensures m == Resolve(parse, digest, bp, artifacts)
    ensures m.body.blueprintId == bp.id && m.body.blueprintName == bp.name && m.body.boundArtifactIds == bp.artifactDependencies
    ensures (m.body.state == READY <==> m.body.issues == []) && m.manifestHash == digest(m.body)
    ensures m.body.referenceSelection == "verified-destination-only" && !m.body.credentialMaterial && !m.body.rewriteApplied
  {
    var required := RequiredComponents(bp);
    var byId := ArtifactsById(artifacts);
    var resolved, issues, ids, items := CollectEntries(parse, byId, required, bp.artifactDependencies);
    var ordered, report := OrderEntries(ids, items);
    issues := issues + report;
    var resume := FindResumePoint(ordered, issues);
    var body := ManifestBody(bp.id, bp.name, if issues == [] then READY else BLOCKED, required, bp.artifactDependencies,
                             ordered, issues, resume, "verified-destination-only", false, false);
    m := Manifest(body, digest(body));
  }
}
