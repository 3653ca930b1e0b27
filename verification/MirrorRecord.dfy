/**
  From a mirror run to the resolver: the run's checks are summed up, the artifact's row records the sum, and the
  resolver reads the row (artifact_mirror.py:1154-1212; main.py:4593-4628, 4700-4709; cluster_factory.py:245-248).
 */
module MirrorRecord {
  import opened Ordering
  import opened Wrappers
  import opened FileSystem
  import opened Mirror
  import opened Snapshot
  import opened Blueprint
  import opened ReadyManifest
  import opened Kahn
  import OciMirror

  /** The overall status of a verification; no checks at all are refused before this. */
  function Overall(statuses: seq<Status>): Status {
    if FAIL in statuses then FAIL
    else if WARN in statuses then WARN
    else if forall s | s in statuses :: s == SKIP then SKIP
    else PASS
  }

  function StatusName(s: Status): string {
    match s
    case PASS => "PASS"
    case FAIL => "FAIL"
    case WARN => "WARN"
    case SKIP => "SKIP"
  }

  lemma PassIffMirrored(outcome: Outcome, checks: seq<Status>)
    requires Reports(outcome, checks)
    ensures Overall(checks) == PASS <==> outcome != Failed
  {
    if outcome != Failed {
      assert PASS in checks && PASS != SKIP;
    }
  }

  const REPOSITORY_KINDS := {"apt-repository", "rpm-repository", "python-repository"}

  /** A typed plan for one artifact. */
  datatype Job = Job(
    operation: string, gate: string, kind: string, version: string, source: string, destination: string, digest: string,
    replaceExisting: bool)

  /**
    The runtime's surroundings: how URLs are read, which path under the mirror's root a file destination names if any, how
    archives are opened, what an approved collection is, and the rules for registries.
   */
  datatype Runtime = Runtime(
    parse: string -> Url, path: string -> Option<Path>, codec: Codec, collection: Bytes -> bool, rules: OciMirror.Rules, maxBytes: nat)

  /** What a run fetches from: a stream, and for a release what Git reports; either may be missing. */
  datatype Source = Source(bytes: Option<Bytes>, pinned: string, git: GitReport)

  // ---- Which runs are accepted ----------------------------------------------------------------------

  predicate Governed(job: Job) {
    job.operation == "artifact.mirror.apply" && job.gate == "changeset-exact-hash-approval"
  }

  ghost predicate Exact(digest: string) {
    exists hex: string :: |hex| == 64 && digest == "sha256:" + hex
  }

  lemma ExactIff(digest: string)
    ensures Exact(digest) <==> "sha256:" <= digest && |digest| == 71
  {
    if "sha256:" <= digest && |digest| == 71 {
      assert digest == "sha256:" + digest[7..] && |digest[7..]| == 64;
    }
  }

  /** From a file or an HTTPS server to a file. */
  predicate ToFile(t: Runtime, job: Job) {
    t.parse(job.destination).scheme == "file" && (t.parse(job.source).scheme == "file" || t.parse(job.source).scheme == "https")
  }

  /** From registry to registry. */
  predicate ToRegistry(t: Runtime, job: Job) {
    t.parse(job.destination).scheme == "oci" && t.parse(job.source).scheme == "oci" && (job.kind == "oci-image" || job.kind == "helm-chart")
  }

  ghost predicate Accepted(t: Runtime, job: Job) {
    Governed(job) && Exact(job.digest) && (ToFile(t, job) || ToRegistry(t, job))
  }

  /** A release fetched over HTTPS; from a file it is copied like any other file. */
  predicate IsRelease(t: Runtime, job: Job) {
    job.kind == "git-release" && t.parse(job.source).scheme == "https"
  }

  predicate IsCollection(job: Job) {
    job.kind == "ansible-collection"
  }

  predicate IsRepository(job: Job) {
    job.kind == "apt-repository" || job.kind == "rpm-repository" || job.kind == "python-repository"
  }

  // ---- What a run to a file promises ------------------------------------------------------------------

  function RequestOf(t: Runtime, job: Job, path: Path): Request {
    Request(path, job.digest, job.replaceExisting, t.maxBytes)
  }

  /** The pinned content: a valid tree marked for the digest, or bytes with it, which for a collection are an approved one. */
  predicate Content(t: Runtime, job: Job, files: Files, path: Path) {
    if IsRepository(job) then Current(t.codec, files, path, Mark(job.kind, job.digest))
    else Holds(t.codec.digest, files, path, job.digest) && (IsCollection(job) ==> t.collection(files[path].data))
  }

  /** It is there already, and within the limit where its bytes are read again. */
  predicate Present(t: Runtime, job: Job, files: Files, path: Path) {
    Content(t, job, files, path) && (!IsRepository(job) ==> |files[path].data| <= t.maxBytes)
  }

  /** Nothing at the destination stands in the way. */
  predicate Room(t: Runtime, job: Job, files: Files, path: Path) {
    if IsRepository(job) then Replaceable(t.codec, files, RequestOf(t, job, path), Mark(job.kind, job.digest))
    else Open(t.codec.digest, files, RequestOf(t, job, path))
  }

  /** What is offered, within the limit: the archive of the pinned commit for a release, else the source's bytes. */
  predicate Within(t: Runtime, job: Job, source: Source) {
    var offered := if IsRelease(t, job) then source.git.archive else source.bytes;
    offered.Some? && |offered.value| <= t.maxBytes
  }

  /** It is the pinned release, collection, repository or file. */
  predicate Acceptable(t: Runtime, job: Job, path: Path, source: Source)
    requires Within(t, job, source)
  {
    if IsRelease(t, job) then
      && source.git.tagged == Some(source.pinned) && source.git.fetched == Some(source.pinned) && !source.git.submodules
      && t.codec.digest(source.git.archive.value) == job.digest
    else if IsRepository(job) then Publishable(t.codec, source.bytes.value, RequestOf(t, job, path), Mark(job.kind, job.digest))
    else t.codec.digest(source.bytes.value) == job.digest && (IsCollection(job) ==> t.collection(source.bytes.value))
  }

  /** What a run to a path promises, however it went. */
  predicate Placed(t: Runtime, job: Job, source: Source, path: Path, before: Files, after: Files, faulted: bool, outcome: Outcome) {
    && (outcome != Failed ==> Content(t, job, after, path))
    && (outcome == AlreadyMirrored || (path in before && !job.replaceExisting) ==> after == before && outcome != Mirrored)
    && (!IsRepository(job) ==> Safe(t.codec.digest, before, after, RequestOf(t, job, path)))
    && (outcome == Mirrored && IsRelease(t, job) ==>
          source.git.tagged == Some(source.pinned) && source.git.fetched == Some(source.pinned) && !source.git.submodules)
    && (!faulted && Present(t, job, before, path) ==> outcome == AlreadyMirrored)
    && (!faulted && Room(t, job, before, path) && Within(t, job, source) ==> (outcome == Mirrored <==> Acceptable(t, job, path, source)))
  }

  // ---- Runs -------------------------------------------------------------------------------------------

  /** The files and manifests at some point, and whether an operation on them failed before it. */
  datatype World = World(files: Files, manifests: OciMirror.Manifests, faulted: bool)

  function CopyingOf(job: Job): OciMirror.Copying {
    OciMirror.Copying(job.kind, job.version, job.source, job.destination, job.digest, job.replaceExisting)
  }

  /** What a run promises about files and registries. */
  ghost predicate Performed(t: Runtime, job: Job, source: Source, before: World, after: World, outcome: Outcome) {
    if !Accepted(t, job) || (ToFile(t, job) && t.path(job.destination).None?) then
      outcome == Failed && after.files == before.files && after.manifests == before.manifests
    else if ToRegistry(t, job) then
      && after.files == before.files
      && OciMirror.Copied(t.rules, t.codec.digest, CopyingOf(job), before.manifests, after.manifests, after.faulted, outcome)
    else
      && after.manifests == before.manifests
      && Placed(t, job, source, t.path(job.destination).value, before.files, after.files, after.faulted, outcome)
  }

  /** A run as it ended: its outcome, and what it left. */
  datatype Run = Run(job: Job, outcome: Outcome, left: World)

  /** What the run was to put somewhere is there, with the digest that its plan pins. */
  predicate Pinned(t: Runtime, run: Run) {
    if ToRegistry(t, run.job) then OciMirror.Resolves(t.rules, t.codec.digest, CopyingOf(run.job), run.left.manifests)
    else t.path(run.job.destination).Some? && Content(t, run.job, run.left.files, t.path(run.job.destination).value)
  }

  lemma PerformedIsPinned(t: Runtime, job: Job, source: Source, before: World, after: World, outcome: Outcome)
    requires Performed(t, job, source, before, after, outcome) && outcome != Failed
    ensures Accepted(t, job) && Pinned(t, Run(job, outcome, after))
  {
  }

  /** The runtimes whose destination is a path. */
  method ExecuteToFile(disk: Disk, t: Runtime, job: Job, path: Path, source: Source) returns (outcome: Outcome, checks: seq<Status>)
    requires disk.Valid() && Faithful(t.codec)
    modifies disk
    ensures disk.Valid() && old(disk.history) <= disk.history && Reports(outcome, checks) && (old(disk.faulted) ==> disk.faulted)
    ensures Placed(t, job, source, path, old(disk.files), disk.files, disk.faulted, outcome)
  {
    var r := Request(path, job.digest, job.replaceExisting, t.maxBytes);
    ghost var start, before := |disk.history|, disk.files;
    if job.kind == "git-release" && t.parse(job.source).scheme == "https" {
      outcome, checks := ExecuteGitRelease(disk, t.codec.digest, source.pinned, source.git, r);
    } else if job.kind == "ansible-collection" {
      outcome, checks := ExecuteAnsibleCollection(disk, t.codec.digest, t.collection, source.bytes, r);
    } else if job.kind in REPOSITORY_KINDS {
      var backup;
      outcome, checks, backup := ExecuteRepositorySnapshot(disk, t.codec, source.bytes, r, job.kind);
    } else {
      outcome, checks := ExecuteBlob(disk, t.codec.digest, source.bytes, r);
    }
    if !IsRepository(job) {
      LastIsSafe(t.codec.digest, before, disk.history, start, r);
    }
  }

  lemma LastIsSafe(digest: Bytes -> string, before: Files, history: seq<Files>, start: nat, r: Request)
    requires AlwaysSafe(digest, before, history, start, r) && 0 < start <= |history| && history[start - 1] == before
    ensures Safe(digest, before, history[|history| - 1], r)
  {
  }

  /** `runtime_capability`. */
  predicate Capable(kind: string, from: string, to: string) {
    var release := kind == "git-release" && from == "https" && to == "file";
    var collection := kind == "ansible-collection" && from in {"file", "https"} && to == "file";
    var repository := kind in REPOSITORY_KINDS && from in {"file", "https"} && to == "file";
    var blob := from in {"file", "https"} && to == "file" && !release && !collection && !repository;
    var oci := kind in {"oci-image", "helm-chart"} && from == "oci" && to == "oci";
    blob || oci || release || collection || repository
  }

  lemma CapableIff(t: Runtime, job: Job)
    ensures Capable(job.kind, t.parse(job.source).scheme, t.parse(job.destination).scheme) <==> ToFile(t, job) || ToRegistry(t, job)
  {
  }

  /** `execute`: the runtime for the artifact's kind and schemes. */
  method Execute(disk: Disk, registry: OciMirror.Registry, t: Runtime, job: Job, source: Source) returns (outcome: Outcome, checks: seq<Status>)
    requires disk.Valid() && Faithful(t.codec)
    modifies disk, registry
    ensures disk.Valid() && Reports(outcome, checks)
    ensures Performed(t, job, source, World(old(disk.files), old(registry.manifests), old(disk.faulted || registry.faulted)),
                      World(disk.files, registry.manifests, disk.faulted || registry.faulted), outcome)
  {
    ExactIff(job.digest);
    CapableIff(t, job);
    if job.operation != "artifact.mirror.apply" || job.gate != "changeset-exact-hash-approval" {
      return Failed, [FAIL];
    }
    if !Capable(job.kind, t.parse(job.source).scheme, t.parse(job.destination).scheme) {
      return Failed, [FAIL];
    }
    if !("sha256:" <= job.digest) || |job.digest| != 71 {
      return Failed, [FAIL];
    }
    if t.parse(job.source).scheme == "oci" && t.parse(job.destination).scheme == "oci" {
      outcome, checks := OciMirror.ExecuteOci(registry, t.rules, t.codec.digest, CopyingOf(job));
      return;
    }
    if t.path(job.destination).None? {
      return Failed, [FAIL];
    }
    outcome, checks := ExecuteToFile(disk, t, job, t.path(job.destination).value, source);
  }

  /** `artifact_mirror_items`, and beside it the run last recorded for each artifact. */
  class ArtifactTable {
    const t: Runtime
    var items: map<string, Artifact>
    ghost var last: map<string, Run>

    /** The recorded run was for this row, and if it succeeded it left the pinned content at the row's destination. */
    predicate Recorded(a: Artifact, run: Run) {
      && run.job.kind == a.kind && run.job.version == a.version && run.job.destination == a.destination && run.job.digest == a.digest
      && (run.outcome != Failed ==> Pinned(t, run))
    }

    /** An artifact counts as mirrored exactly if its last recorded run mirrored it or found it mirrored. */
    ghost predicate Valid()
      reads this
    {
      && Faithful(t.codec) && last.Keys <= items.Keys
      && (forall id | id in items :: items[id].id == id && (Blueprint.Mirrored(items[id]) <==> id in last && last[id].outcome != Failed))
      && (forall id | id in last :: Recorded(items[id], last[id]))
    }

    constructor (t: Runtime)
      requires Faithful(t.codec)
      ensures Valid() && this.t == t && items == map[]
    {
      this.t, items, last := t, map[], map[];
    }

    /** `create_artifact_mirror_item`: a new row has no verification. */
    method Create(id: string, kind: string, version: string, digest: string, destination: string, labels: map<string, string>)
      requires Valid() && id !in items
      modifies this
      ensures Valid() && last == old(last)
      ensures items == old(items)[id := Artifact(id, kind, version, digest, destination, labels, None)]
    {
      items := items[id := Artifact(id, kind, version, digest, destination, labels, None)];
    }

    /** The end of an artifact job: the only write to `verification_json`. The plan may name a row that is not there. */
    method Record(id: string, ghost run: Run, checks: seq<Status>, verificationId: string, observedAt: int)
      requires Valid() && Reports(run.outcome, checks) && (id in items ==> Recorded(items[id], run))
      modifies this
      ensures Valid() && items.Keys == old(items).Keys
      ensures id in items ==> last == old(last)[id := run] && (Blueprint.Mirrored(items[id]) <==> run.outcome != Failed)
      ensures id !in items ==> last == old(last)
      ensures forall other | other in items && other != id :: items[other] == old(items)[other]
      ensures id in items ==>
                items[id] == old(items)[id].(verification := Some(Verification(if run.outcome != Failed then "PASS" else "FAIL",
                                                                               if run.outcome != Failed then "MIRRORED" else "FAILED",
                                                                               Some(verificationId), Some(observedAt))))
    {
      if id in items {
        PassIffMirrored(run.outcome, checks);
        var overall := Overall(checks);
        var syncState := if overall == PASS then "MIRRORED" else "FAILED";
        var verification := Verification(StatusName(overall), syncState, Some(verificationId), Some(observedAt));
        items := items[id := items[id].(verification := Some(verification))];
        last := last[id := run];
      }
    }

    /** A mirror job, from the run to the row. */
    method MirrorArtifact(id: string, disk: Disk, registry: OciMirror.Registry, from: string, source: Source, replaceExisting: bool,
                          verificationId: string, observedAt: int) returns (outcome: Outcome, ghost job: Job)
      requires Valid() && disk.Valid() && id in items
      modifies this, disk, registry
      ensures Valid() && disk.Valid() && items.Keys == old(items).Keys
      ensures var a := old(items)[id];
              job == Job("artifact.mirror.apply", "changeset-exact-hash-approval", a.kind, a.version, from, a.destination, a.digest, replaceExisting)
      ensures last == old(last)[id := Run(job, outcome, World(disk.files, registry.manifests, disk.faulted || registry.faulted))]
      ensures Performed(t, job, source, World(old(disk.files), old(registry.manifests), old(disk.faulted || registry.faulted)), last[id].left, outcome)
      ensures Blueprint.Mirrored(items[id]) <==> outcome != Failed
      ensures Blueprint.Mirrored(items[id]) ==> Accepted(t, job) && Pinned(t, last[id])
    {
      var a := items[id];
      var plan := Job("artifact.mirror.apply", "changeset-exact-hash-approval", a.kind, a.version, from, a.destination, a.digest, replaceExisting);
      job := plan;
      ghost var before := World(disk.files, registry.manifests, disk.faulted || registry.faulted);
      var checks;
      outcome, checks := Execute(disk, registry, t, plan, source);
      ghost var after := World(disk.files, registry.manifests, disk.faulted || registry.faulted);
      if outcome != Failed {
        PerformedIsPinned(t, job, source, before, after, outcome);
      }
      Record(id, Run(job, outcome, after), checks, verificationId, observedAt);
    }
  }

  /**
    Every entry of a manifest that is READY over the table's rows: the run last recorded for it ended MIRRORED or
    ALREADY_MIRRORED, and left the content pinned by the entry's digest at the entry's offline reference.
   */
  lemma ReadyEntriesWereMirrored(table: ArtifactTable, digest: ManifestBody -> string, bp: ClusterBlueprint, artifacts: seq<Artifact>, k: nat)
    requires table.Valid() && forall a | a in artifacts :: a.id in table.items && table.items[a.id] == a
    requires Resolve(table.t.parse, digest, bp, artifacts).body.state == READY
    requires k < |Resolve(table.t.parse, digest, bp, artifacts).body.dependencyOrder|
    ensures var item := Resolve(table.t.parse, digest, bp, artifacts).body.dependencyOrder[k];
            && item.id in table.last
            && var run := table.last[item.id];
               && run.outcome != Failed && run.job.digest == item.digest && run.job.version == item.version
               && item.offlineReference == Some(run.job.destination) && Pinned(table.t, run)
  {
    var byId, order := ArtifactsById(artifacts), Resolve(table.t.parse, digest, bp, artifacts).body.dependencyOrder;
    var id := order[k].id;
    ReadyIffComplete(table.t.parse, digest, bp, artifacts);
    ReadyEntry(table.t.parse, digest, bp, artifacts, k);
    BindableIsMirrored(table.t.parse, byId, RequiredMap(RequiredComponents(bp)), id);
    ArtifactOfId(artifacts, id);
    assert table.Recorded(table.items[id], table.last[id]);
  }

  /** Each entry is bound under its own id, and is the entry of that artifact. */
  lemma ReadyEntry(parse: string -> Url, digest: ManifestBody -> string, bp: ClusterBlueprint, artifacts: seq<Artifact>, k: nat)
    requires Resolve(parse, digest, bp, artifacts).body.state == READY
    requires k < |Resolve(parse, digest, bp, artifacts).body.dependencyOrder|
    ensures var item, byId := Resolve(parse, digest, bp, artifacts).body.dependencyOrder[k], ArtifactsById(artifacts);
            item.id in Elems(bp.artifactDependencies) && item.id in byId && item == ItemOf(parse, byId[item.id], item.id)
  {
    ReadyOrder(parse, digest, bp, artifacts);
    var items := BoundItems(parse, ArtifactsById(artifacts), Elems(bp.artifactDependencies));
    EntryIsBound(parse, ArtifactsById(artifacts), Elems(bp.artifactDependencies), PublishedOrder(GraphOf(items)), k);
  }

  lemma EntryIsBound(parse: string -> Url, byId: map<string, Artifact>, bound: set<string>, ids: seq<string>, k: nat)
    requires forall i | 0 <= i < |ids| :: ids[i] in BoundItems(parse, byId, bound)
    requires k < |Entries(BoundItems(parse, byId, bound), ids)|
    ensures var item := Entries(BoundItems(parse, byId, bound), ids)[k];
            item.id in bound && item.id in byId && item == ItemOf(parse, byId[item.id], item.id)
  {
    assert BoundItems(parse, byId, bound)[ids[k]].id == ids[k];
  }

  lemma BindableIsMirrored(parse: string -> Url, byId: map<string, Artifact>, required: map<(string, string), Required>, id: string)
    requires Bindable(parse, byId, required, id)
    ensures id in byId && Blueprint.Mirrored(byId[id]) && OfflineReference(parse, byId[id].destination) == Some(byId[id].destination)
  {
  }

  lemma {:induction false} ArtifactOfId(artifacts: seq<Artifact>, id: string)
    requires id in ArtifactsById(artifacts)
    ensures ArtifactsById(artifacts)[id] in artifacts && ArtifactsById(artifacts)[id].id == id
  {
    var front, a := artifacts[..|artifacts| - 1], artifacts[|artifacts| - 1];
    if a.id != id {
      ArtifactOfId(front, id);
    }
  }
}
