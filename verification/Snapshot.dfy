/**
  Publishing a repository snapshot (artifact_mirror.py:844-1010): a tree is extracted, validated and marked in a
  staging directory, the tree at the destination is moved to a backup, the staged one takes its place, and the
  backup goes last. Extraction, validation and the marker's text are arbitrary functions.
 */
module Snapshot {
  import opened Wrappers
  import opened FileSystem
  import opened Mirror

  type Tree = map<string, Bytes>

  const MARKER := ".hermes-repository-snapshot.json"

  datatype Mark = Mark(kind: string, digest: string)

  /** `extract` opens an archive, `valid` is `validate_repository_tree`, `mark` and `readMark` write and read the marker. */
  datatype Codec = Codec(
    digest: Bytes -> string, extract: Bytes -> Option<Tree>, valid: Tree -> bool, mark: (Tree, Mark) -> Bytes,
    readMark: Bytes -> Option<Mark>)

  /** Reading a marker gives back what was written. */
  ghost predicate Faithful(c: Codec) {
    forall t, m :: c.readMark(c.mark(t, m)) == Some(m)
  }

  /** A staged tree that passed validation, with the marker for the pinned digest. */
  ghost predicate Published(c: Codec, node: Node, m: Mark) {
    node.Dir? && exists t: Tree :: c.valid(t) && node.tree == Marked(c, t, m)
  }

  function Marked(c: Codec, tree: Tree, m: Mark): Tree {
    tree[MARKER := c.mark(tree, m)]
  }

  function MarkAt(c: Codec, tree: Tree): Option<Mark> {
    if MARKER in tree then c.readMark(tree[MARKER]) else None
  }

  /** The destination is marked as the pinned snapshot and validates. */
  predicate Current(c: Codec, fs: Files, path: Path, m: Mark) {
    path in fs && fs[path].Dir? && MarkAt(c, fs[path].tree) == Some(m) && c.valid(fs[path].tree)
  }

  /**
    What was at the destination is still there, or at the backup path while the destination is empty, or the
    destination holds a published tree.
   */
  ghost predicate Guarded(c: Codec, before: Files, fs: Files, destination: Path, m: Mark, backup: Option<Path>) {
    if destination in fs then SameAt(before, fs, destination) || Published(c, fs[destination], m)
    else destination in before ==> backup.Some? && backup.value in fs && fs[backup.value] == before[destination]
  }

  ghost predicate AlwaysGuarded(c: Codec, before: Files, history: seq<Files>, start: nat, destination: Path, m: Mark, backup: Option<Path>) {
    forall k | start <= k < |history| :: Guarded(c, before, history[k], destination, m, backup)
  }

  // ---- Steps that keep the guard ----------------------------------------------------------------------

  /** Changes elsewhere keep it, and so do changes to the backup while the destination is occupied. */
  lemma GuardedElsewhere(c: Codec, before: Files, middle: Files, fs: Files, paths: set<Path>, destination: Path, m: Mark, backup: Option<Path>)
    requires Guarded(c, before, middle, destination, m, backup) && OnlyAt(middle, fs, paths) && destination !in paths
    requires backup.None? || backup.value !in paths || destination in middle
    ensures Guarded(c, before, fs, destination, m, backup)
  {
    assert SameAt(middle, fs, destination);
    if destination !in middle && backup.Some? {
      assert SameAt(middle, fs, backup.value);
    }
  }

  lemma AlwaysGuardedElsewhere(c: Codec, before: Files, history: seq<Files>, longer: seq<Files>, start: nat, middle: Files, paths: set<Path>,
                               destination: Path, m: Mark, backup: Option<Path>)
    requires history <= longer && AlwaysGuarded(c, before, history, start, destination, m, backup)
    requires Guarded(c, before, middle, destination, m, backup) && Kept(longer, |history|, middle, paths) && destination !in paths
    requires backup.None? || backup.value !in paths || destination in middle
    ensures AlwaysGuarded(c, before, longer, start, destination, m, backup)
  {
    forall k | start <= k < |longer|
      ensures Guarded(c, before, longer[k], destination, m, backup)
    {
      if k < |history| {
        assert longer[k] == history[k];
      } else {
        assert OnlyAt(middle, longer[k], paths);
        GuardedElsewhere(c, before, middle, longer[k], paths, destination, m, backup);
      }
    }
  }

  /** Before the destination is touched any backup path will do. */
  lemma UntouchedIsGuarded(c: Codec, before: Files, history: seq<Files>, start: nat, paths: set<Path>, destination: Path, m: Mark, backup: Option<Path>)
    requires Kept(history, start, before, paths) && destination !in paths
    ensures AlwaysGuarded(c, before, history, start, destination, m, backup)
  {
    forall k | start <= k < |history|
      ensures Guarded(c, before, history[k], destination, m, backup)
    {
      assert OnlyAt(before, history[k], paths) && SameAt(before, history[k], destination);
    }
  }

  lemma OneMoreGuarded(c: Codec, before: Files, history: seq<Files>, fs: Files, start: nat, destination: Path, m: Mark, backup: Option<Path>)
    requires AlwaysGuarded(c, before, history, start, destination, m, backup) && Guarded(c, before, fs, destination, m, backup)
    ensures AlwaysGuarded(c, before, history + [fs], start, destination, m, backup)
  {
    forall k | start <= k < |history + [fs]|
      ensures Guarded(c, before, (history + [fs])[k], destination, m, backup)
    {
      if k < |history| {
        assert (history + [fs])[k] == history[k];
      }
    }
  }

  // ---- Staging ------------------------------------------------------------------------------------------

  /** What the staging of a run leaves beside the destination: `archive`, `container` and `staging` are its own paths. */
  datatype Work = Work(archive: Path, container: Option<Path>, staging: Option<Path>) {
    function Paths(): set<Path> {
      {archive} + (if container.Some? then {container.value} else {}) + (if staging.Some? then {staging.value} else {})
    }
  }

  /** Fetch, compare, extract, validate, mark. */
  method Stage(disk: Disk, c: Codec, source: Option<Bytes>, r: Request, kind: string) returns (work: Work, staged: bool)
    requires disk.Valid()
    modifies disk
    ensures disk.Valid() && old(disk.history) <= disk.history && (old(disk.faulted) ==> disk.faulted)
    ensures Kept(disk.history, |old(disk.history)|, old(disk.files), work.Paths()) && OnlyAt(old(disk.files), disk.files, work.Paths())
    ensures r.destination !in work.Paths()
    ensures staged ==> forall p | p in work.Paths() :: p in disk.files
    ensures staged ==> work.staging.Some? && work.staging.value in disk.files
                       && Published(c, disk.files[work.staging.value], Mark(kind, r.expected))
    ensures staged ==> source.Some? && c.digest(source.value) == r.expected && c.extract(source.value).Some?
                       && disk.files[work.staging.value] == Dir(Marked(c, c.extract(source.value).value, Mark(kind, r.expected)))
    ensures !disk.faulted && source.Some? && |source.value| <= r.maxBytes ==>
              (staged <==> c.digest(source.value) == r.expected && c.extract(source.value).Some? && c.valid(c.extract(source.value).value))
  {
    ghost var start, before := |disk.history|, disk.files;
    var archive, copied := Fetch(disk, c.digest, source, r);
    work := Work(archive, None, None);
    if copied.None? || copied.value != r.expected {
      return work, false;
    }
    ghost var history1, files1 := disk.history, disk.files;
    var container, made := disk.CreateTempDir(r.destination);
    work := Work(archive, Some(container), None);
    KeptExtends(history1, disk.history, start, before, {archive}, files1, {container});
    assert OnlyAt(files1, disk.files, {container});
    OnlyAtTransitive(before, files1, disk.files, {archive}, {container});
    if !made {
      return work, false;
    }
    ghost var history2, files2 := disk.history, disk.files;
    var staging := disk.Unused(r.destination);
    work := Work(archive, Some(container), Some(staging));
    staged := FillStaging(disk, c, source.value, staging, Mark(kind, r.expected));
    KeptExtends(history2, disk.history, start, before, {archive} + {container}, files2, {staging});
    OnlyAtTransitive(before, files2, disk.files, {archive} + {container}, {staging});
  }

  /** The staged tree: extracted, found valid, marked. */
  method FillStaging(disk: Disk, c: Codec, source: Bytes, staging: Path, m: Mark) returns (staged: bool)
    requires disk.Valid() && staging !in disk.files
    modifies disk
    ensures disk.Valid() && old(disk.history) <= disk.history && (old(disk.faulted) ==> disk.faulted)
    ensures Kept(disk.history, |old(disk.history)|, old(disk.files), {staging}) && OnlyAt(old(disk.files), disk.files, {staging})
    ensures staged ==> staging in disk.files && Published(c, disk.files[staging], m)
    ensures staged ==> c.extract(source).Some? && disk.files[staging] == Dir(Marked(c, c.extract(source).value, m))
    ensures !disk.faulted ==> (staged <==> c.extract(source).Some? && c.valid(c.extract(source).value))
  {
    var tree := c.extract(source);
    var extracted := if tree.Some? then tree.value else map[];
    var ok := disk.PutTree(staging, extracted);
    if !ok || tree.None? || !c.valid(tree.value) {
      return false;
    }
    ghost var history, files := disk.history, disk.files;
    staged := disk.PutEntry(staging, MARKER, c.mark(tree.value, m));
    KeptExtends(history, disk.history, |old(disk.history)|, old(disk.files), {staging}, files, {staging});
    OnlyAtTransitive(old(disk.files), files, disk.files, {staging}, {staging});
  }

  // ---- The swap -----------------------------------------------------------------------------------------

  /**
    The old tree goes to the backup, the staged one to the destination; where the second move fails the first is
    undone if it can be. The result says where the backup would be and whether the staged tree is in place with
    the backup gone.
   */
  method Swap(disk: Disk, c: Codec, staging: Path, destination: Path, m: Mark, ghost before: Files, ghost start: nat)
      returns (backup: Option<Path>, ok: bool)
    requires disk.Valid() && start <= |disk.history| && staging in disk.files && staging != destination && Published(c, disk.files[staging], m)
    requires SameAt(before, disk.files, destination)
    requires forall b :: AlwaysGuarded(c, before, disk.history, start, destination, m, b)
    modifies disk
    ensures disk.Valid() && old(disk.history) <= disk.history && (old(disk.faulted) ==> disk.faulted)
    ensures backup.Some? ==> destination in before && backup.value != destination && backup.value !in old(disk.files)
    ensures AlwaysGuarded(c, before, disk.history, start, destination, m, backup)
    ensures Guarded(c, before, disk.files, destination, m, backup)
    ensures ok ==> destination in disk.files && disk.files[destination] == old(disk.files)[staging] && disk.faulted == old(disk.faulted)
    ensures !ok ==> disk.faulted
  {
    backup := None;
    if destination in disk.files {
      backup, ok := MoveAway(disk, c, destination, m, before, start);
      if !ok {
        return;
      }
    }
    ghost var history, fs := disk.history, disk.files;
    assert staging in disk.files && Published(c, disk.files[staging], m);
    ok := disk.Replace(staging, destination);
    if ok {
      OneMoreGuarded(c, before, history, disk.files, start, destination, m, backup);
    } else {
      if backup.Some? && backup.value in disk.files && destination !in disk.files {
        var undone := disk.Replace(backup.value, destination);
        if undone {
          OneMoreGuarded(c, before, history, disk.files, start, destination, m, backup);
        }
      }
      return;
    }
    if backup.Some? && backup.value in disk.files {
      history, fs := disk.history, disk.files;
      ok := disk.RemoveTree(backup.value);
      AlwaysGuardedElsewhere(c, before, history, disk.history, start, fs, {backup.value}, destination, m, backup);
      GuardedElsewhere(c, before, fs, disk.files, {backup.value}, destination, m, backup);
      assert SameAt(fs, disk.files, destination);
    }
  }

  /** `mkdtemp`, `rmdir`, `os.replace(destination, backup)`. */
  method MoveAway(disk: Disk, c: Codec, destination: Path, m: Mark, ghost before: Files, ghost start: nat)
      returns (backup: Option<Path>, ok: bool)
    requires disk.Valid() && start <= |disk.history| && destination in disk.files && SameAt(before, disk.files, destination)
    requires forall b :: AlwaysGuarded(c, before, disk.history, start, destination, m, b)
    modifies disk
    ensures disk.Valid() && old(disk.history) <= disk.history && (old(disk.faulted) ==> disk.faulted)
    ensures backup.Some? ==> destination in before && backup.value != destination && backup.value !in old(disk.files)
    ensures AlwaysGuarded(c, before, disk.history, start, destination, m, backup)
    ensures Guarded(c, before, disk.files, destination, m, backup)
    ensures ok ==> backup.Some? && disk.faulted == old(disk.faulted)
                   && disk.files == old(disk.files)[backup.value := old(disk.files)[destination]] - {destination}
    ensures !ok ==> disk.faulted
  {
    ghost var history, fs := disk.history, disk.files;
    var path;
    path, ok := disk.CreateTempDir(destination);
    AlwaysGuardedElsewhere(c, before, history, disk.history, start, fs, {path}, destination, m, None);
    AlwaysGuardedElsewhere(c, before, history, disk.history, start, fs, {path}, destination, m, Some(path));
    if !ok {
      return None, false;
    }
    backup := Some(path);
    history := disk.history;
    ghost var made := disk.files;
    ok := disk.RemoveTree(path);
    AlwaysGuardedElsewhere(c, before, history, disk.history, start, made, {path}, destination, m, backup);
    GuardedElsewhere(c, before, made, disk.files, {path}, destination, m, backup);
    if !ok {
      return;
    }
    assert disk.files == fs;
    history := disk.history;
    ok := disk.Replace(destination, path);
    if ok {
      OneMoreGuarded(c, before, history, disk.files, start, destination, m, backup);
    }
  }

  // ---- The way out ----------------------------------------------------------------------------------------

  /** The `finally` block: each part may fail, which skips the rest. */
  method CleanUp(disk: Disk, c: Codec, work: Work, backup: Option<Path>, destination: Path, m: Mark, ghost before: Files, ghost start: nat)
      returns (ok: bool)
    requires disk.Valid() && start <= |disk.history| && destination !in work.Paths()
    requires backup.Some? ==> destination in before && backup.value != destination && backup.value !in work.Paths()
    requires AlwaysGuarded(c, before, disk.history, start, destination, m, backup) && Guarded(c, before, disk.files, destination, m, backup)
    modifies disk
    ensures disk.Valid() && old(disk.history) <= disk.history && (old(disk.faulted) ==> disk.faulted)
    ensures AlwaysGuarded(c, before, disk.history, start, destination, m, backup)
    ensures Guarded(c, before, disk.files, destination, m, backup)
    ensures destination in old(disk.files) ==> SameAt(old(disk.files), disk.files, destination)
    ensures ok && destination in before ==> destination in disk.files
    ensures if ok then disk.faulted == old(disk.faulted) else disk.faulted
  {
    ghost var history, fs := disk.history, disk.files;
    ok := disk.Unlink(work.archive);
    AlwaysGuardedElsewhere(c, before, history, disk.history, start, fs, {work.archive}, destination, m, backup);
    assert OnlyAt(fs, disk.files, {work.archive});
    GuardedElsewhere(c, before, fs, disk.files, {work.archive}, destination, m, backup);
    assert SameAt(fs, disk.files, destination);
    if !ok {
      return;
    }
    ok := Sweep(disk, c, work.staging, backup, destination, m, before, start);
    if !ok {
      return;
    }
    ok := Sweep(disk, c, work.container, backup, destination, m, before, start);
    if !ok || backup.None? || backup.value !in disk.files {
      return;
    }
    history, fs := disk.history, disk.files;
    if destination !in disk.files {
      ok := disk.Replace(backup.value, destination);
      if ok {
        OneMoreGuarded(c, before, history, disk.files, start, destination, m, backup);
      }
    } else {
      ok := disk.RemoveTree(backup.value);
      AlwaysGuardedElsewhere(c, before, history, disk.history, start, fs, {backup.value}, destination, m, backup);
      GuardedElsewhere(c, before, fs, disk.files, {backup.value}, destination, m, backup);
      assert SameAt(fs, disk.files, destination);
    }
  }

  /** `if path is not None and path.exists(): rmtree(path)`, for a path of the run's own. */
  method Sweep(disk: Disk, c: Codec, path: Option<Path>, backup: Option<Path>, destination: Path, m: Mark, ghost before: Files, ghost start: nat)
      returns (ok: bool)
    requires disk.Valid() && start <= |disk.history| && (path.Some? ==> path.value != destination && backup != path)
    requires AlwaysGuarded(c, before, disk.history, start, destination, m, backup) && Guarded(c, before, disk.files, destination, m, backup)
    modifies disk
    ensures disk.Valid() && old(disk.history) <= disk.history && (old(disk.faulted) ==> disk.faulted)
    ensures AlwaysGuarded(c, before, disk.history, start, destination, m, backup)
    ensures Guarded(c, before, disk.files, destination, m, backup)
    ensures SameAt(old(disk.files), disk.files, destination)
    ensures if ok then disk.faulted == old(disk.faulted) else disk.faulted
  {
    if path.None? || path.value !in disk.files {
      return true;
    }
    ghost var history, fs := disk.history, disk.files;
    ok := disk.RemoveTree(path.value);
    AlwaysGuardedElsewhere(c, before, history, disk.history, start, fs, {path.value}, destination, m, backup);
    GuardedElsewhere(c, before, fs, disk.files, {path.value}, destination, m, backup);
    assert SameAt(fs, disk.files, destination);
  }

  /** Nothing at the destination stands in the way of a run. */
  predicate Replaceable(c: Codec, before: Files, r: Request, m: Mark) {
    r.destination in before ==> r.replaceExisting && before[r.destination].Dir? && MarkAt(c, before[r.destination].tree) != Some(m)
  }

  /** An archive with the pinned digest whose tree validates, before and after it is marked. */
  predicate Publishable(c: Codec, source: Bytes, r: Request, m: Mark) {
    && c.digest(source) == r.expected && c.extract(source).Some? && c.valid(c.extract(source).value)
    && c.valid(Marked(c, c.extract(source).value, m))
  }

  // ---- The runtime ------------------------------------------------------------------------------------------

  /**
    The check that comes first: a hit, a refusal, or nothing in the way. A marker that cannot be read counts as
    none, a tree that cannot be read as invalid.
   */
  method CheckTree(disk: Disk, c: Codec, r: Request, m: Mark) returns (settled: Option<Outcome>)
    modifies disk`faulted
    ensures old(disk.faulted) ==> disk.faulted
    ensures r.destination !in disk.files ==> settled == None
    ensures settled == Some(AlreadyMirrored) ==> Current(c, disk.files, r.destination, m)
    ensures Current(c, disk.files, r.destination, m) && !disk.faulted ==> settled == Some(AlreadyMirrored)
    ensures settled == None && r.destination in disk.files ==> r.replaceExisting && disk.files[r.destination].Dir?
    ensures settled == None && r.destination in disk.files && !disk.faulted ==> MarkAt(c, disk.files[r.destination].tree) != Some(m)
    ensures settled != Some(Mirrored)
    ensures settled.Some? ==> disk.faulted || !Replaceable(c, disk.files, r, m)
  {
    if r.destination !in disk.files {
      return None;
    }
    if !disk.files[r.destination].Dir? {
      return Some(Failed);
    }
    var tree := disk.files[r.destination].tree;
    var readable, complete: bool := *, *;
    if !readable || !complete {
      disk.Fault();
    }
    if readable && MarkAt(c, tree) == Some(m) {
      return Some(if complete && c.valid(tree) then AlreadyMirrored else Failed);
    }
    return if r.replaceExisting then None else Some(Failed);
  }

  /**
    `_execute_repository_snapshot`. Whatever fails or crashes, a tree that was at the destination is intact there
    or at the backup path, or the destination holds a staged tree that was validated and marked.
   */
  method ExecuteRepositorySnapshot(disk: Disk, c: Codec, source: Option<Bytes>, r: Request, kind: string)
      returns (outcome: Outcome, checks: seq<Status>, backup: Option<Path>)
    requires disk.Valid() && Faithful(c)
    modifies disk
    ensures disk.Valid() && old(disk.history) <= disk.history && Reports(outcome, checks) && (old(disk.faulted) ==> disk.faulted)
    ensures backup.Some? ==> backup.value != r.destination
    ensures AlwaysGuarded(c, old(disk.files), disk.history, |old(disk.history)|, r.destination, Mark(kind, r.expected), backup)
    ensures outcome != Failed ==> Current(c, disk.files, r.destination, Mark(kind, r.expected))
    ensures outcome == Mirrored ==>
              && source.Some? && c.digest(source.value) == r.expected && c.extract(source.value).Some?
              && var tree := c.extract(source.value).value;
                 && r.destination in disk.files
                 && disk.files[r.destination] == Dir(tree[".hermes-repository-snapshot.json" := c.mark(tree, Mark(kind, r.expected))])
    ensures outcome == AlreadyMirrored ==> Current(c, old(disk.files), r.destination, Mark(kind, r.expected)) && Untouched(disk)
    ensures Current(c, old(disk.files), r.destination, Mark(kind, r.expected)) && !disk.faulted ==> outcome == AlreadyMirrored
    ensures r.destination in old(disk.files) && !r.replaceExisting ==> Untouched(disk) && outcome != Mirrored
    ensures !disk.faulted && Replaceable(c, old(disk.files), r, Mark(kind, r.expected)) && source.Some? && |source.value| <= r.maxBytes ==>
              (outcome == Mirrored <==> Publishable(c, source.value, r, Mark(kind, r.expected)))
  {
    backup := None;
    var m := Mark(kind, r.expected);
    ghost var before, start := disk.files, |disk.history|;
    var settled := CheckTree(disk, c, r, m);
    if settled.Some? {
      return settled.value, if settled.value == AlreadyMirrored then [SKIP, PASS, PASS] else [FAIL], backup;
    }
    var work, staged := Stage(disk, c, source, r, kind);
    forall b: Option<Path>
      ensures AlwaysGuarded(c, before, disk.history, start, r.destination, m, b)
    {
      UntouchedIsGuarded(c, before, disk.history, start, work.Paths(), r.destination, m, b);
    }
    assert SameAt(before, disk.files, r.destination);
    var swapped := false;
    if staged {
      backup, swapped := Swap(disk, c, work.staging.value, r.destination, m, before, start);
    }
    var ok := CleanUp(disk, c, work, backup, r.destination, m, before, start);
    if !ok || !swapped {
      return Failed, [FAIL], backup;
    }
    outcome := Revalidate(disk, c, r, m);
    checks := if outcome == Mirrored then [PASS, PASS, PASS] else [FAIL];
  }

  /** The last check: the destination validates again and carries the marker. */
  method Revalidate(disk: Disk, c: Codec, r: Request, m: Mark) returns (outcome: Outcome)
    requires r.destination in disk.files && Published(c, disk.files[r.destination], m) && Faithful(c) && m.digest == r.expected
    modifies disk`faulted
    ensures old(disk.faulted) ==> disk.faulted
    ensures outcome == Mirrored || outcome == Failed
    ensures outcome == Mirrored ==> Current(c, disk.files, r.destination, m)
    ensures outcome == Failed ==> disk.faulted || !Current(c, disk.files, r.destination, m)
  {
    var tree := disk.files[r.destination].tree;
    var readable: bool := *;
    if !readable {
      disk.Fault();
      return Failed;
    }
    var mark := MarkAt(c, tree);
    outcome := if c.valid(tree) && mark.Some? && mark.value.digest == r.expected then Mirrored else Failed;
  }

  /** Running again after MIRRORED: without an I/O error the answer is ALREADY_MIRRORED, and nothing was written. */
  method SnapshotTwice(disk: Disk, c: Codec, source: Option<Bytes>, later: Option<Bytes>, r: Request, kind: string)
      returns (first: Outcome, second: Outcome, ghost between: Files)
    requires disk.Valid() && Faithful(c)
    modifies disk
    ensures first == Mirrored && !disk.faulted ==> second == AlreadyMirrored && disk.files == between
  {
    var checks, backup;
    first, checks, backup := ExecuteRepositorySnapshot(disk, c, source, r, kind);
    between := disk.files;
    second, checks, backup := ExecuteRepositorySnapshot(disk, c, later, r, kind);
  }
}
