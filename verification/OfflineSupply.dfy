/**
  The offline supply a provisioning plan carries
  (control-plane/src/hermes_control_plane/cluster_factory.py:449-511): a second, independent
  check of a manifest before it is used.
 */
module OfflineSupply {
  import opened Ordering
  import opened Kahn
  import opened DependencyOrder
  import opened Blueprint
  import opened ReadyManifest

  datatype SupplyEntry = SupplyEntry(id: string, component: string, name: string, dependencyKey: string, kind: string,
                                     version: string, digest: string, offlineReference: string, dependsOn: seq<string>)

  datatype Supply = Supply(manifestHash: string, dependencyOrder: seq<SupplyEntry>)

  datatype SupplyError =
    | ManifestNotReady | HashVerificationFailed | CredentialContent | NotDestinationOnly | NoResolvedDependencies
    | DuplicateOrEmptyId | NotMirrored(id: string) | UnsafeReference(id: string) | InvalidFileReference(id: string)
    | InvalidOciReference(id: string) | UnsupportedScheme(id: string) | InexactDigest(id: string)

  datatype Result<+T> = Ok(value: T) | Err(error: SupplyError)

  /** `digest.startswith("sha256:")` and of length 71. */
  predicate PinnedDigest(digest: string) {
    "sha256:" <= digest && |digest| == 71
  }

  /** The prefix and 64 characters. */
  lemma PinnedIff(digest: string)
    ensures PinnedDigest(digest) <==> exists hex: string :: |hex| == 64 && digest == "sha256:" + hex
  {
    if PinnedDigest(digest) {
      assert digest == "sha256:" + digest[7..] && |digest[7..]| == 64;
    }
  }

  function ReferenceText(item: Item): string {
    if item.offlineReference.Some? then item.offlineReference.value else ""
  }

  function EntryOf(item: Item): SupplyEntry {
    SupplyEntry(item.id, item.component, item.name, item.dependencyKey, item.kind, item.version, item.digest,
                ReferenceText(item), item.dependsOn)
  }

  /** The check of one entry, given the ids seen before it. */
  function CheckEntry(parse: string -> Url, item: Item, seen: set<string>): (r: Result<SupplyEntry>)
    ensures r.Ok? ==> r.value == EntryOf(item)
  {
    var u := parse(ReferenceText(item));
    if item.id == "" || item.id in seen then Err(DuplicateOrEmptyId)
    else if !item.mirrored then Err(NotMirrored(item.id))
    else if u.hasUsername || u.hasPassword || u.query != "" || u.fragment != "" then Err(UnsafeReference(item.id))
    else if u.scheme == "file" && (u.netloc != "" || !("/" <= u.path)) then Err(InvalidFileReference(item.id))
    else if u.scheme == "oci" && (u.netloc == "" || forall c | c in u.path :: c == '/') then Err(InvalidOciReference(item.id))
    else if u.scheme != "file" && u.scheme != "oci" then Err(UnsupportedScheme(item.id))
    else if !PinnedDigest(item.digest) then Err(InexactDigest(item.id))
    else Ok(EntryOf(item))
  }

  /** What the supply check wants of an entry, apart from its id being new. */
  predicate Acceptable(parse: string -> Url, item: Item) {
    item.id != "" && item.mirrored && OfflineReferenceOk(parse(ReferenceText(item))) && PinnedDigest(item.digest)
  }

  lemma CheckEntryMeaning(parse: string -> Url, item: Item, seen: set<string>)
    ensures CheckEntry(parse, item, seen).Ok? <==> Acceptable(parse, item) && item.id !in seen
  {
  }

  ghost predicate SupplyOf(m: Manifest, supply: Supply) {
    && supply.manifestHash == m.manifestHash
    && |supply.dependencyOrder| == |m.body.dependencyOrder|
    && forall k | 0 <= k < |m.body.dependencyOrder| :: supply.dependencyOrder[k] == EntryOf(m.body.dependencyOrder[k])
  }

  /** Every field of the entry in its own place. */
  predicate SameFields(e: SupplyEntry, item: Item) {
    && e.id == item.id && e.component == item.component && e.name == item.name && e.dependencyKey == item.dependencyKey
    && e.kind == item.kind && e.version == item.version && e.digest == item.digest && e.dependsOn == item.dependsOn
    && e.offlineReference == if item.offlineReference.Some? then item.offlineReference.value else ""
  }

  /** The manifests the check lets through. */
  ghost predicate Supplyable(parse: string -> Url, digest: ManifestBody -> string, m: Manifest) {
    && m.body.state == READY && m.body.issues == []
    && m.manifestHash != "" && digest(m.body) == m.manifestHash
    && !m.body.credentialMaterial && m.body.referenceSelection == "verified-destination-only"
    && m.body.dependencyOrder != []
    && Distinct(IdsOf(m.body.dependencyOrder))
    && forall k | 0 <= k < |m.body.dependencyOrder| :: Acceptable(parse, m.body.dependencyOrder[k])
  }

  /** The manifest is refused as a whole, for this reason. */
  predicate RefusedManifest(m: Manifest, e: SupplyError) {
    match e
    case ManifestNotReady => m.body.state != READY || m.body.issues != []
    case HashVerificationFailed => true
    case CredentialContent => m.body.credentialMaterial
    case NotDestinationOnly => m.body.referenceSelection != "verified-destination-only"
    case NoResolvedDependencies => m.body.dependencyOrder == []
    case _ => false
  }

  /** The `k`-th entry is refused, for this reason. */
  predicate RefusedEntry(parse: string -> Url, order: seq<Item>, k: nat, e: SupplyError)
    requires k < |order|
  {
    var item, u := order[k], parse(if order[k].offlineReference.Some? then order[k].offlineReference.value else "");
    match e
    case DuplicateOrEmptyId => item.id == "" || exists j | 0 <= j < k :: order[j].id == item.id
    case NotMirrored(id) => id == item.id && !item.mirrored
    case UnsafeReference(id) => id == item.id && (u.hasUsername || u.hasPassword || u.query != "" || u.fragment != "")
    case InvalidFileReference(id) => id == item.id && u.scheme == "file" && (u.netloc != "" || u.path == "" || u.path[0] != '/')
    case InvalidOciReference(id) => id == item.id && u.scheme == "oci" && (u.netloc == "" || forall c | c in u.path :: c == '/')
    case UnsupportedScheme(id) => id == item.id && u.scheme != "file" && u.scheme != "oci"
    case InexactDigest(id) => id == item.id && !PinnedDigest(item.digest)
    case _ => false
  }

  lemma EntryIsRefused(parse: string -> Url, order: seq<Item>, k: nat, seen: set<string>)
    requires k < |order| && CheckEntry(parse, order[k], seen).Err?
    requires forall x | x in seen :: exists j | 0 <= j < k :: order[j].id == x
    ensures RefusedEntry(parse, order, k, CheckEntry(parse, order[k], seen).error)
  {
  }

  /** `offline_artifact_supply`: refuses, or copies every entry in order. */
  method OfflineArtifactSupply(parse: string -> Url, digest: ManifestBody -> string, m: Manifest) returns (r: Result<Supply>)
    ensures r.Ok? <==> Supplyable(parse, digest, m)
    ensures r.Ok? ==> SupplyOf(m, r.value)
    ensures r.Ok? ==> r.value.manifestHash == m.manifestHash && |r.value.dependencyOrder| == |m.body.dependencyOrder|
    ensures r.Ok? ==> forall k | 0 <= k < |m.body.dependencyOrder| :: SameFields(r.value.dependencyOrder[k], m.body.dependencyOrder[k])
    ensures r == Err(ManifestNotReady) <==> m.body.state != READY || m.body.issues != []
    ensures r.Err? ==> RefusedManifest(m, r.error) || exists k: nat :: k < |m.body.dependencyOrder| && RefusedEntry(parse, m.body.dependencyOrder, k, r.error)
    ensures r == Err(HashVerificationFailed) <==>
              m.body.state == READY && m.body.issues == [] && (m.manifestHash == "" || digest(m.body) != m.manifestHash)
  {
    if m.body.state != READY || m.body.issues != [] {
      return Err(ManifestNotReady);
    }
    if m.manifestHash == "" || digest(m.body) != m.manifestHash {
      return Err(HashVerificationFailed);
    }
    if m.body.credentialMaterial {
      return Err(CredentialContent);
    }
    if m.body.referenceSelection != "verified-destination-only" {
      return Err(NotDestinationOnly);
    }
    var order := m.body.dependencyOrder;
    var entries: seq<SupplyEntry> := [];
    var seen: set<string> := {};
    ghost var ids := IdsOf(order);
    for k := 0 to |order|
      invariant |entries| == k && forall j | 0 <= j < k :: entries[j] == EntryOf(order[j])
      invariant forall x :: x in seen <==> exists j | 0 <= j < k :: ids[j] == x
      invariant forall j | 0 <= j < k :: Acceptable(parse, order[j])
      invariant forall i, j | 0 <= i < j < k :: ids[i] != ids[j]
    {
      CheckEntryMeaning(parse, order[k], seen);
      var checked := CheckEntry(parse, order[k], seen);
      if checked.Err? {
        assert ids[k] == order[k].id;
        EntryIsRefused(parse, order, k, seen);
        return Err(checked.error);
      }
      seen := seen + {order[k].id};
      entries := entries + [checked.value];
    }
    if entries == [] {
      return Err(NoResolvedDependencies);
    }
    return Ok(Supply(m.manifestHash, entries));
  }

  // ---- The resolver's READY manifests -----------------------------------------------------

  lemma SomethingRequired(bp: ClusterBlueprint)
    ensures RequiredComponents(bp) != []
  {
  }

  lemma CompleteBindsSomething(parse: string -> Url, byId: map<string, Artifact>, required: seq<Required>, bound: set<string>)
    requires Complete(parse, byId, required, bound) && required != []
    ensures bound != {}
  {
    assert required[0] in required;
    var id :| id in bound && Covers(byId, id, required[0]);
  }

  lemma OrderNotEmpty(parse: string -> Url, digest: ManifestBody -> string, bp: ClusterBlueprint, artifacts: seq<Artifact>)
    requires Resolve(parse, digest, bp, artifacts).body.state == READY
    ensures Resolve(parse, digest, bp, artifacts).body.dependencyOrder != []
  {
    ReadyIffComplete(parse, digest, bp, artifacts);
    SomethingRequired(bp);
    CompleteBindsSomething(parse, ArtifactsById(artifacts), RequiredComponents(bp), Elems(bp.artifactDependencies));
    ReadyOrder(parse, digest, bp, artifacts);
    var g := GraphOf(BoundItems(parse, ArtifactsById(artifacts), Elems(bp.artifactDependencies)));
    OrderIsPermutation(g);
    ElemsEmpty(PublishedOrder(g));
  }

  lemma ReadyEntriesAcceptable(parse: string -> Url, digest: ManifestBody -> string, bp: ClusterBlueprint, artifacts: seq<Artifact>)
    requires Resolve(parse, digest, bp, artifacts).body.state == READY
    ensures forall item | item in Resolve(parse, digest, bp, artifacts).body.dependencyOrder ::
              Acceptable(parse, item) <==> item.id != "" && PinnedDigest(item.digest)
  {
    ReadyIffComplete(parse, digest, bp, artifacts);
    ReadyOrder(parse, digest, bp, artifacts);
    BoundEntriesAcceptable(parse, ArtifactsById(artifacts), RequiredMap(RequiredComponents(bp)), Elems(bp.artifactDependencies));
  }

  lemma BoundEntriesAcceptable(parse: string -> Url, byId: map<string, Artifact>, required: map<(string, string), Required>, bound: set<string>)
    requires forall id | id in bound :: Bindable(parse, byId, required, id)
    ensures forall id | id in BoundItems(parse, byId, bound) ::
              var item := BoundItems(parse, byId, bound)[id];
              Acceptable(parse, item) <==> item.id != "" && PinnedDigest(item.digest)
  {
  }

  ghost predicate AllPinned(order: seq<Item>) {
    forall k | 0 <= k < |order| :: order[k].id != "" && PinnedDigest(order[k].digest)
  }

  lemma SupplyableIffPinned(parse: string -> Url, digest: ManifestBody -> string, m: Manifest)
    requires m.body.state == READY && m.body.issues == [] && !m.body.credentialMaterial
    requires m.body.referenceSelection == "verified-destination-only"
    requires m.manifestHash == digest(m.body) != ""
    requires m.body.dependencyOrder != [] && Distinct(IdsOf(m.body.dependencyOrder))
    requires forall item | item in m.body.dependencyOrder :: Acceptable(parse, item) <==> item.id != "" && PinnedDigest(item.digest)
    ensures Supplyable(parse, digest, m) <==> AllPinned(m.body.dependencyOrder)
  {
    var order := m.body.dependencyOrder;
    assert forall k | 0 <= k < |order| :: order[k] in order;
  }

  /**
    A READY manifest of the resolver passes the supply check exactly when every entry has a
    `sha256:` digest of the right length and a non-empty id; the resolver itself checks neither.
   */
  lemma ReadyIsSuppliedIffPinned(parse: string -> Url, digest: ManifestBody -> string, bp: ClusterBlueprint, artifacts: seq<Artifact>)
    requires Resolve(parse, digest, bp, artifacts).body.state == READY
    requires forall body :: digest(body) != ""
    ensures Supplyable(parse, digest, Resolve(parse, digest, bp, artifacts)) <==>
            AllPinned(Resolve(parse, digest, bp, artifacts).body.dependencyOrder)
  {
    OrderNotEmpty(parse, digest, bp, artifacts);
    ManifestOrder(parse, digest, bp, artifacts, []);
    ReadyEntriesAcceptable(parse, digest, bp, artifacts);
    SupplyableIffPinned(parse, digest, Resolve(parse, digest, bp, artifacts));
  }

  lemma PinnedEntries(items: map<string, Item>, ids: seq<string>)
    requires forall i | 0 <= i < |ids| :: ids[i] in items
    requires forall id | id in items :: items[id].id != "" && PinnedDigest(items[id].digest)
    ensures AllPinned(Entries(items, ids))
  {
  }

  lemma PinnedItems(parse: string -> Url, byId: map<string, Artifact>, bound: set<string>)
    requires forall id | id in bound :: id != "" && (id in byId ==> PinnedDigest(byId[id].digest))
    ensures forall id | id in BoundItems(parse, byId, bound) ::
              BoundItems(parse, byId, bound)[id].id != "" && PinnedDigest(BoundItems(parse, byId, bound)[id].digest)
  {
  }

  /** Of the bound artifacts themselves: each named by a non-empty id and pinned by a digest. */
  lemma PinnedArtifactsAreSupplied(parse: string -> Url, digest: ManifestBody -> string, bp: ClusterBlueprint, artifacts: seq<Artifact>)
    requires Resolve(parse, digest, bp, artifacts).body.state == READY
    requires forall body :: digest(body) != ""
    requires forall id | id in Elems(bp.artifactDependencies) ::
               id != "" && (id in ArtifactsById(artifacts) ==> PinnedDigest(ArtifactsById(artifacts)[id].digest))
    ensures Supplyable(parse, digest, Resolve(parse, digest, bp, artifacts))
  {
    var items := BoundItems(parse, ArtifactsById(artifacts), Elems(bp.artifactDependencies));
    ReadyOrder(parse, digest, bp, artifacts);
    PinnedItems(parse, ArtifactsById(artifacts), Elems(bp.artifactDependencies));
    PinnedEntries(items, PublishedOrder(GraphOf(items)));
    ReadyIsSuppliedIffPinned(parse, digest, bp, artifacts);
  }
}
