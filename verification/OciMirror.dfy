/**
  The mirror runtime of images and charts, from registry to registry (artifact_mirror.py:219-285, 494-601): read the
  source manifest, compare digests, look at the destination tag, copy, and read tag and digest reference back.
 */
module OciMirror {
  import opened Wrappers
  import opened FileSystem
  import opened Mirror

  /** A manifest's name in a repository. */
  datatype Reference = Tag(repository: string, tag: string) | Digest(repository: string, digest: string)

  type Manifests = map<Reference, Bytes>

  /** Only this tag and digest references of its repository differ. */
  ghost predicate OnlyTag(a: Manifests, b: Manifests, repository: string, tag: string) {
    forall ref: Reference | ref != Tag(repository, tag) && !(ref.Digest? && ref.repository == repository) :: SameManifest(a, b, ref)
  }

  predicate SameManifest(a: Manifests, b: Manifests, ref: Reference) {
    (ref in a <==> ref in b) && (ref in a ==> a[ref] == b[ref])
  }

  /** What the registries hold. Every command may fail; a failed copy may have written part of what it was to write. */
  class Registry {
    var manifests: Manifests
    ghost var faulted: bool

    constructor (manifests: Manifests)
      ensures this.manifests == manifests && !faulted
    {
      this.manifests, faulted := manifests, false;
    }

    ghost method Fault()
      modifies this`faulted
      ensures faulted
    {
      faulted := true;
    }

    /** `skopeo inspect --raw`. */
    method Inspect(ref: Reference) returns (manifest: Option<Bytes>, ok: bool)
      modifies this`faulted
      ensures if ok then faulted == old(faulted) else faulted
      ensures ok ==> manifest == if ref in manifests then Some(manifests[ref]) else None
    {
      ok := *;
      manifest := if ref in manifests then Some(manifests[ref]) else None;
      if !ok {
        Fault();
      }
    }

    /** `skopeo copy --all --preserve-digests`, and the digest it reports, if it does. */
    method Copy(digest: Bytes -> string, manifest: Bytes, repository: string, tag: string) returns (reported: Option<string>, ok: bool)
      modifies this
      ensures OnlyTag(old(manifests), manifests, repository, tag) && (old(faulted) ==> faulted)
      ensures ok ==> manifests == old(manifests)[Digest(repository, digest(manifest)) := manifest][Tag(repository, tag) := manifest]
      ensures ok && !faulted ==> !old(faulted) && (reported == None || reported == Some(digest(manifest)))
      ensures !ok ==> faulted
    {
      ok := *;
      var uploaded, tagged, told: bool := *, *, *;
      if ok || uploaded {
        manifests := manifests[Digest(repository, digest(manifest)) := manifest];
      }
      if ok || tagged {
        manifests := manifests[Tag(repository, tag) := manifest];
      }
      reported := if told then Some(digest(manifest)) else None;
      var garbled: bool := *;
      if garbled {
        reported := *;
      }
      if !ok || garbled {
        Fault();
      }
    }
  }

  /**
    The rules for names: whether a version is a tag and a semantic version, the repository that a source or a destination
    names where it is well-formed, without credentials, and on the list of allowed registries; and what a chart's manifest is.
   */
  datatype Rules = Rules(tag: string -> bool, semantic: string -> bool, source: string -> Option<string>, destination: string -> Option<string>,
                         chart: Bytes -> bool)

  /** What is copied, from where to where. */
  datatype Copying = Copying(kind: string, version: string, source: string, destination: string, expected: string, replaceExisting: bool)

  /** The names are in order: only then is any registry asked. */
  predicate Named(rules: Rules, x: Copying) {
    && (x.kind == "oci-image" || x.kind == "helm-chart") && rules.tag(x.version) && (x.kind == "helm-chart" ==> rules.semantic(x.version))
    && rules.source(x.source).Some? && rules.destination(x.destination).Some?
  }

  /** The pinned manifest, and for a chart one that is a chart's. */
  predicate Pinned(rules: Rules, digest: Bytes -> string, x: Copying, manifest: Bytes) {
    digest(manifest) == x.expected && (x.kind == "helm-chart" ==> rules.chart(manifest))
  }

  predicate PinnedAt(rules: Rules, digest: Bytes -> string, x: Copying, ms: Manifests, ref: Reference) {
    ref in ms && Pinned(rules, digest, x, ms[ref])
  }

  /** Tag and digest reference of the destination both resolve to the pinned digest. */
  predicate Resolves(rules: Rules, digest: Bytes -> string, x: Copying, ms: Manifests) {
    && Named(rules, x)
    && var repository := rules.destination(x.destination).value;
       && Tag(repository, x.version) in ms && digest(ms[Tag(repository, x.version)]) == x.expected
       && PinnedAt(rules, digest, x, ms, Digest(repository, x.expected))
  }

  /** The source offers it. */
  predicate Offered(rules: Rules, digest: Bytes -> string, x: Copying, ms: Manifests) {
    Named(rules, x) && PinnedAt(rules, digest, x, ms, Digest(rules.source(x.source).value, x.expected))
  }

  /** The destination tag is another manifest's, and is not to be replaced. */
  predicate Taken(rules: Rules, digest: Bytes -> string, x: Copying, ms: Manifests) {
    && Named(rules, x)
    && var ref := Tag(rules.destination(x.destination).value, x.version);
       ref in ms && digest(ms[ref]) != x.expected && !x.replaceExisting
  }

  /** The destination tag is free, or another manifest's that may be replaced. */
  predicate Vacant(rules: Rules, digest: Bytes -> string, x: Copying, ms: Manifests) {
    && Named(rules, x)
    && var ref := Tag(rules.destination(x.destination).value, x.version);
       ref in ms ==> digest(ms[ref]) != x.expected && x.replaceExisting
  }

  /** What a run promises, however it went. */
  ghost predicate Copied(rules: Rules, digest: Bytes -> string, x: Copying, before: Manifests, after: Manifests, faulted: bool, outcome: Outcome) {
    && (outcome != Failed ==> Resolves(rules, digest, x, after))
    && (!Named(rules, x) ==> outcome == Failed)
    && (outcome == AlreadyMirrored || !Named(rules, x) || Taken(rules, digest, x, before) ==> after == before && outcome != Mirrored)
    && (Named(rules, x) ==> OnlyTag(before, after, rules.destination(x.destination).value, x.version))
    && (!faulted ==> (outcome == Mirrored <==> Offered(rules, digest, x, before) && Vacant(rules, digest, x, before)))
  }

  /** The copy, and the two reads that must give back the pinned manifest. */
  method CopyAndVerify(registry: Registry, rules: Rules, digest: Bytes -> string, x: Copying, manifest: Bytes, repository: string)
      returns (outcome: Outcome)
    requires Named(rules, x) && rules.destination(x.destination).value == repository && Pinned(rules, digest, x, manifest)
    modifies registry
    ensures OnlyTag(old(registry.manifests), registry.manifests, repository, x.version) && (old(registry.faulted) ==> registry.faulted)
    ensures outcome == Mirrored || outcome == Failed
    ensures outcome == Mirrored ==> Resolves(rules, digest, x, registry.manifests)
    ensures outcome == Failed ==> registry.faulted
  {
    var reported, ok := registry.Copy(digest, manifest, repository, x.version);
    if !ok || (reported.Some? && reported.value != "" && reported.value != x.expected) {
      return Failed;
    }
    var tagged, held;
    tagged, ok := registry.Inspect(Tag(repository, x.version));
    if !ok {
      return Failed;
    }
    held, ok := registry.Inspect(Digest(repository, x.expected));
    if !ok || tagged.None? || held.None? || digest(tagged.value) != x.expected || digest(held.value) != x.expected {
      return Failed;
    }
    if x.kind == "helm-chart" && !(rules.chart(tagged.value) && rules.chart(held.value)) {
      return Failed;
    }
    return Mirrored;
  }

  /** `_execute_oci`. */
  method ExecuteOci(registry: Registry, rules: Rules, digest: Bytes -> string, x: Copying) returns (outcome: Outcome, checks: seq<Status>)
    modifies registry
    ensures Reports(outcome, checks) && (old(registry.faulted) ==> registry.faulted)
    ensures Copied(rules, digest, x, old(registry.manifests), registry.manifests, registry.faulted, outcome)
    ensures !registry.faulted ==>
              (outcome == AlreadyMirrored <==>
               Offered(rules, digest, x, old(registry.manifests)) && Resolves(rules, digest, x, old(registry.manifests)))
  {
    if x.kind != "oci-image" && x.kind != "helm-chart" {
      return Failed, [FAIL];
    }
    if !rules.tag(x.version) || (x.kind == "helm-chart" && !rules.semantic(x.version)) {
      return Failed, [FAIL];
    }
    if rules.source(x.source).None? || rules.destination(x.destination).None? {
      return Failed, [FAIL];
    }
    var repository := rules.destination(x.destination).value;
    var manifest, ok := registry.Inspect(Digest(rules.source(x.source).value, x.expected));
    if !ok || manifest.None? || digest(manifest.value) != x.expected || (x.kind == "helm-chart" && !rules.chart(manifest.value)) {
      return Failed, [FAIL];
    }
    var current;
    current, ok := registry.Inspect(Tag(repository, x.version));
    if !ok {
      return Failed, [FAIL];
    }
    if current.Some? && digest(current.value) == x.expected {
      var held;
      held, ok := registry.Inspect(Digest(repository, x.expected));
      if !ok || held.None? || digest(held.value) != x.expected || (x.kind == "helm-chart" && !rules.chart(held.value)) {
        return Failed, [FAIL];
      }
      return AlreadyMirrored, [PASS, PASS];
    }
    if current.Some? && !x.replaceExisting {
      return Failed, [FAIL];
    }
    outcome := CopyAndVerify(registry, rules, digest, x, manifest.value, repository);
    checks := if outcome == Mirrored then [PASS, PASS] else [FAIL];
  }

  /** Running again after MIRRORED: while the source is still offered the answer is ALREADY_MIRRORED, and nothing was written. */
  method OciTwice(registry: Registry, rules: Rules, digest: Bytes -> string, x: Copying)
      returns (first: Outcome, second: Outcome, ghost between: Manifests)
    modifies registry
    ensures first == Mirrored && !registry.faulted ==>
              registry.manifests == between && (second == AlreadyMirrored <==> Offered(rules, digest, x, between))
  {
    var checks;
    first, checks := ExecuteOci(registry, rules, digest, x);
    between := registry.manifests;
    second, checks := ExecuteOci(registry, rules, digest, x);
  }
}
