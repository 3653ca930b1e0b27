/**
  A provisioning plan bound to its offline artifact supply (cluster_factory.py:489-535): a manifest that passes the
  supply check goes into the plan, entry by entry, and the plan is hashed again.
 */
module BoundPlan {
  import opened Ordering
  import opened Json
  import opened JsonText
  import opened PlanHash
  import opened Blueprint
  import opened OfflineSupply

  // ---- The supply as a document -------------------------------------------------------------------

  function Texts(s: seq<string>): Json {
    Arr(seq(|s|, i requires 0 <= i < |s| => Str(s[i])))
  }

  function EntryDocument(e: SupplyEntry): Json {
    Obj([Field("artifact_id", Str(e.id)), Field("component", Str(e.component)), Field("name", Str(e.name)),
         Field("dependency_key", Str(e.dependencyKey)), Field("kind", Str(e.kind)), Field("version", Str(e.version)),
         Field("digest", Str(e.digest)), Field("offline_reference", Str(e.offlineReference)), Field("depends_on", Texts(e.dependsOn))])
  }

  function OrderDocument(entries: seq<SupplyEntry>): (document: Json)
    ensures document.Arr? && |document.items| == |entries|
    ensures forall k | 0 <= k < |entries| :: document.items[k] == EntryDocument(entries[k])
  {
    Arr(seq(|entries|, k requires 0 <= k < |entries| => EntryDocument(entries[k])))
  }

  const REWRITE_CONTRACT := [
    Field("file_artifacts", Str("provider-worker-local-mirror-path")), Field("oci_artifacts", Str("offline-registry-reference")),
    Field("repository_endpoints", Str("provider-worker-runtime-config")),
    Field("credential_delivery", Str("worker-only-mounted-secrets")), Field("public_network_required", Bool(false))
  ]

  function SupplyDocument(s: Supply): Json {
    Obj([Field("mode", Str("offline-manifest-bound")), Field("manifest_hash", Str(s.manifestHash)),
         Field("dependency_order", OrderDocument(s.dependencyOrder)),
         Field("offline_reference_selection", Str("verified-destination-only")), Field("credential_material_in_plan", Bool(false)),
         Field("provisioner_rewrite_applied", Bool(true)), Field("rewrite_contract", Obj(REWRITE_CONTRACT))])
  }

  // ---- The plan it is bound into --------------------------------------------------------------------

  const OFFLINE_CONTRACT := [
    Field("public_network_required", Bool(false)), Field("arbitrary_shell", Bool(false)),
    Field("arbitrary_ssh_command", Bool(false)), Field("credential_material_in_plan", Bool(false))
  ]

  /** The provider payload with the five offline fields. */
  function OfflineFields(payload: seq<Field>, manifestHash: string, order: Json): seq<Field> {
    var p := Put(payload, "offline_artifact_manifest_hash", Str(manifestHash));
    var q := Put(p, "offline_artifacts", order);
    var r := Put(q, "offline_reference_mode", Str("verified-mirror-destinations"));
    var s := Put(r, "provisioner_rewrite_applied", Bool(true));
    Put(s, "offline_execution_contract", Obj(OFFLINE_CONTRACT))
  }

  /** The schema version after binding: at least 5. */
  function BoundVersion(version: Json): Json {
    Num(if version.Num? && version.number > 5 then version.number else 5)
  }

  function BoundPayload(payload: Json, manifestHash: string, order: Json): Json {
    Obj(OfflineFields(if payload.Obj? then payload.fields else [], manifestHash, order))
  }

  /** The plan with a supply document bound into it, before it is hashed again. */
  function Filled(plan: seq<Field>, document: Json, manifestHash: string, order: Json): seq<Field> {
    var p := Put(plan, "schema_version", BoundVersion(Get(Obj(plan), "schema_version")));
    var q := Put(p, "artifact_supply", document);
    Put(q, "provider_payload", BoundPayload(Get(Obj(q), "provider_payload"), manifestHash, order))
  }

  function WithSupply(plan: seq<Field>, s: Supply): seq<Field> {
    Filled(plan, SupplyDocument(s), s.manifestHash, OrderDocument(s.dependencyOrder))
  }

  function Bound(sha: string -> string, plan: seq<Field>, s: Supply): seq<Field> {
    Finished(sha, Without(WithSupply(plan, s), PLAN_HASH))
  }

  const BOUND_KEYS := {"schema_version", "artifact_supply", "provider_payload", PLAN_HASH}

  lemma KeysDiffer()
    ensures "schema_version" != "artifact_supply" && "schema_version" != "provider_payload" && "artifact_supply" != "provider_payload"
    ensures "schema_version" != PLAN_HASH && "artifact_supply" != PLAN_HASH && "provider_payload" != PLAN_HASH
  {
    assert |"schema_version"| == 14 && |"artifact_supply"| == 15 && |"provider_payload"| == 16 && |PLAN_HASH| == 9;
  }

  lemma FilledDict(plan: seq<Field>, document: Json, manifestHash: string, order: Json)
    requires Distinct(Keys(plan))
    ensures Distinct(Keys(Filled(plan, document, manifestHash, order)))
    ensures Get(Obj(Filled(plan, document, manifestHash, order)), "artifact_supply") == document
    ensures Get(Obj(Filled(plan, document, manifestHash, order)), "provider_payload") ==
            BoundPayload(Get(Obj(plan), "provider_payload"), manifestHash, order)
    ensures Get(Obj(Filled(plan, document, manifestHash, order)), "schema_version") == BoundVersion(Get(Obj(plan), "schema_version"))
  {
    var schema := BoundVersion(Get(Obj(plan), "schema_version"));
    var p := Put(plan, "schema_version", schema);
    PutDict(plan, "schema_version", schema);
    var q := Put(p, "artifact_supply", document);
    PutDict(p, "artifact_supply", document);
    var payload := BoundPayload(Get(Obj(q), "provider_payload"), manifestHash, order);
    PutDict(q, "provider_payload", payload);
    KeysDiffer();
    PutKeepsGet(q, "provider_payload", payload, "artifact_supply");
    PutKeepsGet(plan, "schema_version", schema, "provider_payload");
    PutKeepsGet(p, "artifact_supply", document, "provider_payload");
    PutKeepsGet(p, "artifact_supply", document, "schema_version");
    PutKeepsGet(q, "provider_payload", payload, "schema_version");
  }

  /** Binding fills four fields and keeps the others. */
  lemma FilledKeeps(plan: seq<Field>, document: Json, manifestHash: string, order: Json, key: string)
    requires Distinct(Keys(plan)) && key != "schema_version" && key != "artifact_supply" && key != "provider_payload"
    ensures Get(Obj(Filled(plan, document, manifestHash, order)), key) == Get(Obj(plan), key)
  {
    var schema := BoundVersion(Get(Obj(plan), "schema_version"));
    var p := Put(plan, "schema_version", schema);
    PutDict(plan, "schema_version", schema);
    PutKeepsGet(plan, "schema_version", schema, key);
    var q := Put(p, "artifact_supply", document);
    PutDict(p, "artifact_supply", document);
    PutKeepsGet(p, "artifact_supply", document, key);
    PutKeepsGet(q, "provider_payload", BoundPayload(Get(Obj(q), "provider_payload"), manifestHash, order), key);
  }

  /** What the provider payload of a bound plan says. */
  ghost predicate Offline(payload: Json, manifestHash: string, order: Json) {
    && Get(payload, "offline_artifact_manifest_hash") == Str(manifestHash) && Get(payload, "offline_artifacts") == order
    && Get(payload, "offline_reference_mode") == Str("verified-mirror-destinations") && Get(payload, "provisioner_rewrite_applied") == Bool(true)
    && Get(payload, "offline_execution_contract") == Obj(OFFLINE_CONTRACT)
  }

  lemma OfflineKeysDiffer()
    ensures |"offline_artifact_manifest_hash"| == 30 && |"offline_artifacts"| == 17 && |"offline_reference_mode"| == 22
    ensures |"provisioner_rewrite_applied"| == 27 && |"offline_execution_contract"| == 26
  {
  }

  /** The offline artifacts of the provider payload are the supply's order, beside the four other offline fields. */
  lemma PayloadIsOffline(payload: seq<Field>, manifestHash: string, order: Json)
    requires Distinct(Keys(payload))
    ensures Offline(Obj(OfflineFields(payload, manifestHash, order)), manifestHash, order)
  {
    var p := Put(payload, "offline_artifact_manifest_hash", Str(manifestHash));
    PutDict(payload, "offline_artifact_manifest_hash", Str(manifestHash));
    var q := Put(p, "offline_artifacts", order);
    PutDict(p, "offline_artifacts", order);
    var r := Put(q, "offline_reference_mode", Str("verified-mirror-destinations"));
    PutDict(q, "offline_reference_mode", Str("verified-mirror-destinations"));
    var s := Put(r, "provisioner_rewrite_applied", Bool(true));
    PutDict(r, "provisioner_rewrite_applied", Bool(true));
    var t := Put(s, "offline_execution_contract", Obj(OFFLINE_CONTRACT));
    PutDict(s, "offline_execution_contract", Obj(OFFLINE_CONTRACT));
    OfflineKeysDiffer();
    PutKeepsGet(p, "offline_artifacts", order, "offline_artifact_manifest_hash");
    PutKeepsGet(q, "offline_reference_mode", Str("verified-mirror-destinations"), "offline_artifact_manifest_hash");
    PutKeepsGet(q, "offline_reference_mode", Str("verified-mirror-destinations"), "offline_artifacts");
    PutKeepsGet(r, "provisioner_rewrite_applied", Bool(true), "offline_artifact_manifest_hash");
    PutKeepsGet(r, "provisioner_rewrite_applied", Bool(true), "offline_artifacts");
    PutKeepsGet(r, "provisioner_rewrite_applied", Bool(true), "offline_reference_mode");
    PutKeepsGet(s, "offline_execution_contract", Obj(OFFLINE_CONTRACT), "offline_artifact_manifest_hash");
    PutKeepsGet(s, "offline_execution_contract", Obj(OFFLINE_CONTRACT), "offline_artifacts");
    PutKeepsGet(s, "offline_execution_contract", Obj(OFFLINE_CONTRACT), "offline_reference_mode");
    PutKeepsGet(s, "offline_execution_contract", Obj(OFFLINE_CONTRACT), "provisioner_rewrite_applied");
    assert OfflineFields(payload, manifestHash, order) == t;
  }

  /** The execution contract of an offline plan: no network, no shell, no credentials. */
  lemma ContractForbids(key: string)
    requires key in {"public_network_required", "arbitrary_shell", "arbitrary_ssh_command", "credential_material_in_plan"}
    ensures Get(Obj(OFFLINE_CONTRACT), key) == Bool(false)
  {
    var fields := OFFLINE_CONTRACT;
    assert |fields[0].key| == 23 && |fields[1].key| == 15 && |fields[2].key| == 21 && |fields[3].key| == 27;
    var i :| 0 <= i < 4 && fields[i].key == key;
    OnlyWithKey(fields, i);
  }

  // ---- Main results -------------------------------------------------------------------------------------

  /**
    A plan bound to an offline supply carries that supply, whatever the plan held before, and matches its hash: as
    built, and as stored and read back.
   */
  lemma BoundPlanVerifies(sha: string -> string, plan: seq<Field>, s: Supply)
    requires Distinct(Keys(plan)) && forall t :: sha(t) != ""
    ensures Distinct(Keys(Bound(sha, plan, s))) && Get(Obj(Bound(sha, plan, s)), "artifact_supply") == SupplyDocument(s)
    ensures Verifies(sha, Obj(Bound(sha, plan, s)))
    ensures Loads(CanonicalJson(Obj(Bound(sha, plan, s)))).Some? && Verifies(sha, Loads(CanonicalJson(Obj(Bound(sha, plan, s)))).value)
  {
    var filled := WithSupply(plan, s);
    FilledDict(plan, SupplyDocument(s), s.manifestHash, OrderDocument(s.dependencyOrder));
    WithoutDict(filled, PLAN_HASH);
    FinishKeeps(sha, Without(filled, PLAN_HASH));
    HashedOnceVerifies(sha, Without(filled, PLAN_HASH));
    StoredPlanVerifies(sha, Without(filled, PLAN_HASH));
    KeysDiffer();
    RehashKeeps(sha, filled, "artifact_supply");
  }

  /** Its provider payload lists the same artifacts, and its schema version is at least 5. */
  lemma BoundPayloadHoldsOrder(sha: string -> string, plan: seq<Field>, s: Supply)
    requires Distinct(Keys(plan)) && WellFormed(Get(Obj(plan), "provider_payload"))
    ensures Offline(Get(Obj(Bound(sha, plan, s)), "provider_payload"), s.manifestHash, OrderDocument(s.dependencyOrder))
    ensures var before, after := Get(Obj(plan), "schema_version"), Get(Obj(Bound(sha, plan, s)), "schema_version");
            after.Num? && after.number >= 5 && (after.number > 5 ==> after == before) && (before.Num? && before.number >= 5 ==> after == before)
  {
    var payload := Get(Obj(plan), "provider_payload");
    FilledDict(plan, SupplyDocument(s), s.manifestHash, OrderDocument(s.dependencyOrder));
    KeysDiffer();
    RehashKeeps(sha, WithSupply(plan, s), "provider_payload");
    RehashKeeps(sha, WithSupply(plan, s), "schema_version");
    PayloadIsOffline(if payload.Obj? then payload.fields else [], s.manifestHash, OrderDocument(s.dependencyOrder));
  }

  /** Binding changes the schema version, the supply, the provider payload and the hash, and nothing else. */
  lemma BoundPlanKeeps(sha: string -> string, plan: seq<Field>, s: Supply, key: string)
    requires Distinct(Keys(plan)) && key !in BOUND_KEYS
    ensures Get(Obj(Bound(sha, plan, s)), key) == Get(Obj(plan), key)
  {
    FilledDict(plan, SupplyDocument(s), s.manifestHash, OrderDocument(s.dependencyOrder));
    FilledKeeps(plan, SupplyDocument(s), s.manifestHash, OrderDocument(s.dependencyOrder), key);
    RehashKeeps(sha, WithSupply(plan, s), key);
  }

  /**
    `_bind_ready_artifact_manifest` on the copied plan: it goes through exactly if the manifest passes the supply check.
    Then the plan carries the manifest's entries in order, verifies under its new hash, and keeps its other fields.
   */
  method BindReady(plan: Dict, parse: string -> Url, digest: ManifestBody -> string, sha: string -> string, m: Manifest) returns (r: Result<Supply>)
    requires Distinct(Keys(plan.fields)) && forall t :: sha(t) != ""
    modifies plan
    ensures r.Ok? <==> Supplyable(parse, digest, m)
    ensures r.Err? ==> plan.fields == old(plan.fields)
    ensures r.Ok? ==> SupplyOf(m, r.value) && Get(Obj(plan.fields), "artifact_supply") == SupplyDocument(r.value)
    ensures r.Ok? ==> Verifies(sha, Obj(plan.fields)) && Distinct(Keys(plan.fields))
    ensures r.Ok? ==> forall key | key !in BOUND_KEYS :: Get(Obj(plan.fields), key) == Get(Obj(old(plan.fields)), key)
    ensures r.Ok? ==> plan.fields == Bound(sha, old(plan.fields), r.value)
  {
    r := OfflineArtifactSupply(parse, digest, m);
    if r.Err? {
      return;
    }
    ghost var before := plan.fields;
    var s := r.value;
    plan.fields := Put(plan.fields, "schema_version", BoundVersion(Get(Obj(plan.fields), "schema_version")));
    plan.fields := Put(plan.fields, "artifact_supply", SupplyDocument(s));
    var payload := BoundPayload(Get(Obj(plan.fields), "provider_payload"), s.manifestHash, OrderDocument(s.dependencyOrder));
    plan.fields := Put(plan.fields, "provider_payload", payload);
    plan.fields := Without(plan.fields, PLAN_HASH);
    plan.fields := Put(plan.fields, PLAN_HASH, Str(Sha256Hex(sha, Obj(plan.fields))));
    BoundPlanVerifies(sha, before, s);
    forall key | key !in BOUND_KEYS
      ensures Get(Obj(plan.fields), key) == Get(Obj(before), key)
    {
      BoundPlanKeeps(sha, before, s, key);
    }
  }

  /** The document of an entry, key by key. */
  ghost predicate Reads(document: Json, item: Item) {
    && Says(document, "artifact_id", Str(item.id)) && Says(document, "component", Str(item.component))
    && Says(document, "name", Str(item.name)) && Says(document, "dependency_key", Str(item.dependencyKey))
    && Says(document, "kind", Str(item.kind)) && Says(document, "version", Str(item.version)) && Says(document, "digest", Str(item.digest))
    && Says(document, "offline_reference", Str(if item.offlineReference.Some? then item.offlineReference.value else ""))
    && ReadsTexts(Get(document, "depends_on"), item.dependsOn)
  }

  predicate ReadsTexts(document: Json, texts: seq<string>) {
    document.Arr? && |document.items| == |texts| && forall i | 0 <= i < |texts| :: document.items[i] == Str(texts[i])
  }

  lemma EntryKeys(e: SupplyEntry)
    ensures KeysApart(EntryDocument(e).fields)
  {
    var fields := EntryDocument(e).fields;
    assert |fields[0].key| == 11 && |fields[1].key| == 9 && |fields[2].key| == 4 && |fields[3].key| == 14 && |fields[4].key| == 4
           && |fields[5].key| == 7 && |fields[6].key| == 6 && |fields[7].key| == 17 && |fields[8].key| == 10;
    assert fields[2].key[0] == 'n' && fields[4].key[0] == 'k';
  }

  lemma EntryNames(e: SupplyEntry)
    ensures Says(EntryDocument(e), "artifact_id", Str(e.id)) && Says(EntryDocument(e), "component", Str(e.component))
    ensures Says(EntryDocument(e), "name", Str(e.name)) && Says(EntryDocument(e), "dependency_key", Str(e.dependencyKey))
    ensures Says(EntryDocument(e), "kind", Str(e.kind))
  {
    EntryKeys(e);
    var fields := EntryDocument(e).fields;
    FieldSays(fields, 0, "artifact_id", Str(e.id));
    FieldSays(fields, 1, "component", Str(e.component));
    FieldSays(fields, 2, "name", Str(e.name));
    FieldSays(fields, 3, "dependency_key", Str(e.dependencyKey));
    FieldSays(fields, 4, "kind", Str(e.kind));
  }

  lemma EntryPins(e: SupplyEntry)
    ensures Says(EntryDocument(e), "version", Str(e.version)) && Says(EntryDocument(e), "digest", Str(e.digest))
    ensures Says(EntryDocument(e), "offline_reference", Str(e.offlineReference))
    ensures Says(EntryDocument(e), "depends_on", Texts(e.dependsOn))
  {
    EntryKeys(e);
    var fields := EntryDocument(e).fields;
    FieldSays(fields, 5, "version", Str(e.version));
    FieldSays(fields, 6, "digest", Str(e.digest));
    FieldSays(fields, 7, "offline_reference", Str(e.offlineReference));
    FieldSays(fields, 8, "depends_on", Texts(e.dependsOn));
  }

  lemma EntryReads(e: SupplyEntry, item: Item)
    requires SameFields(e, item)
    ensures Reads(EntryDocument(e), item)
  {
    EntryNames(e);
    EntryPins(e);
  }

  /** The document of a supply holds the manifest's entries, field by field and in the manifest's order, and the manifest's hash. */
  lemma DocumentHoldsEntries(m: Manifest, s: Supply, k: nat)
    requires SupplyOf(m, s) && k < |m.body.dependencyOrder|
    ensures var order := Get(SupplyDocument(s), "dependency_order");
            && order.Arr? && |order.items| == |m.body.dependencyOrder| && Reads(order.items[k], m.body.dependencyOrder[k])
            && Get(SupplyDocument(s), "manifest_hash") == Str(m.manifestHash)
  {
    SupplyReads(s);
    assert SameFields(EntryOf(m.body.dependencyOrder[k]), m.body.dependencyOrder[k]);
    EntryReads(s.dependencyOrder[k], m.body.dependencyOrder[k]);
  }

  lemma SupplyKeys(s: Supply)
    ensures KeysApart(SupplyDocument(s).fields)
  {
    var fields := SupplyDocument(s).fields;
    assert |fields[0].key| == 4 && |fields[1].key| == 13 && |fields[2].key| == 16 && |fields[3].key| == 27 && |fields[4].key| == 27
           && |fields[5].key| == 27 && |fields[6].key| == 16;
    assert fields[2].key[0] == 'd' && fields[6].key[0] == 'r' && fields[3].key[0] == 'o' && fields[4].key[0] == 'c' && fields[5].key[0] == 'p';
  }

  /** The document of a supply, key by key. */
  lemma SupplyReads(s: Supply)
    ensures Get(SupplyDocument(s), "mode") == Str("offline-manifest-bound") && Get(SupplyDocument(s), "manifest_hash") == Str(s.manifestHash)
    ensures Get(SupplyDocument(s), "dependency_order") == OrderDocument(s.dependencyOrder)
    ensures Get(SupplyDocument(s), "offline_reference_selection") == Str("verified-destination-only")
    ensures Get(SupplyDocument(s), "rewrite_contract") == Obj(REWRITE_CONTRACT)
    ensures Get(SupplyDocument(s), "credential_material_in_plan") == Bool(false)
    ensures Get(SupplyDocument(s), "provisioner_rewrite_applied") == Bool(true)
  {
    SupplyKeys(s);
    var fields := SupplyDocument(s).fields;
    FieldSays(fields, 0, "mode", Str("offline-manifest-bound"));
    FieldSays(fields, 1, "manifest_hash", Str(s.manifestHash));
    FieldSays(fields, 2, "dependency_order", OrderDocument(s.dependencyOrder));
    FieldSays(fields, 3, "offline_reference_selection", Str("verified-destination-only"));
    FieldSays(fields, 4, "credential_material_in_plan", Bool(false));
    FieldSays(fields, 5, "provisioner_rewrite_applied", Bool(true));
    FieldSays(fields, 6, "rewrite_contract", Obj(REWRITE_CONTRACT));
  }

  /** What the rewrite contract asks of the provider's worker. */
  lemma RewriteContractReads()
    ensures Get(Obj(REWRITE_CONTRACT), "public_network_required") == Bool(false)
    ensures Get(Obj(REWRITE_CONTRACT), "file_artifacts") == Str("provider-worker-local-mirror-path")
    ensures Get(Obj(REWRITE_CONTRACT), "oci_artifacts") == Str("offline-registry-reference")
    ensures Get(Obj(REWRITE_CONTRACT), "repository_endpoints") == Str("provider-worker-runtime-config")
    ensures Get(Obj(REWRITE_CONTRACT), "credential_delivery") == Str("worker-only-mounted-secrets")
  {
    var fields := REWRITE_CONTRACT;
    assert |fields[0].key| == 14 && |fields[1].key| == 13 && |fields[2].key| == 20 && |fields[3].key| == 19 && |fields[4].key| == 23;
    assert KeysApart(fields);
    FieldSays(fields, 0, "file_artifacts", Str("provider-worker-local-mirror-path"));
    FieldSays(fields, 1, "oci_artifacts", Str("offline-registry-reference"));
    FieldSays(fields, 2, "repository_endpoints", Str("provider-worker-runtime-config"));
    FieldSays(fields, 3, "credential_delivery", Str("worker-only-mounted-secrets"));
    FieldSays(fields, 4, "public_network_required", Bool(false));
  }

  /**
    From the resolver to the plan: a READY manifest over named artifacts with exact digests passes the supply check, and
    the plan bound to what the check returns verifies and carries every entry of the manifest, in its order.
   */
  lemma ReadyManifestIsBound(parse: string -> Url, digest: ManifestBody -> string, bp: ClusterBlueprint, artifacts: seq<Artifact>,
                             sha: string -> string, plan: seq<Field>, s: Supply, k: nat)
    requires Resolve(parse, digest, bp, artifacts).body.state == READY && (forall body :: digest(body) != "") && (forall t :: sha(t) != "")
    requires AllPinned(Resolve(parse, digest, bp, artifacts).body.dependencyOrder) && SupplyOf(Resolve(parse, digest, bp, artifacts), s)
    requires Distinct(Keys(plan)) && k < |Resolve(parse, digest, bp, artifacts).body.dependencyOrder|
    ensures Supplyable(parse, digest, Resolve(parse, digest, bp, artifacts)) && Verifies(sha, Obj(Bound(sha, plan, s)))
    ensures var order := Get(Get(Obj(Bound(sha, plan, s)), "artifact_supply"), "dependency_order");
            && order.Arr? && |order.items| == |Resolve(parse, digest, bp, artifacts).body.dependencyOrder|
            && Reads(order.items[k], Resolve(parse, digest, bp, artifacts).body.dependencyOrder[k])
  {
    ReadyIsSuppliedIffPinned(parse, digest, bp, artifacts);
    BoundPlanVerifies(sha, plan, s);
    DocumentHoldsEntries(Resolve(parse, digest, bp, artifacts), s, k);
  }
}
