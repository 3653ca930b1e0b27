/**
  The mirror runtime of plain files, Git releases and Ansible collections (artifact_mirror.py:410-491, 760-841,
  1087-1116, 1212-1286): copy to a temporary file, compare digests, replace the destination in one step, compare
  again. Digests, archive validation and Git are arbitrary functions of bytes.
 */
module Mirror {
  import opened Wrappers
  import opened FileSystem

  const CHUNK := 1048576

  datatype Outcome = Mirrored | AlreadyMirrored | Failed

  /** The status of one check of a run. */
  datatype Status = PASS | FAIL | WARN | SKIP

  /** A failed run reports a FAIL; a successful one a PASS, and nothing worse than a SKIP. */
  predicate Reports(outcome: Outcome, checks: seq<Status>) {
    if outcome == Failed then FAIL in checks
    else PASS in checks && forall s | s in checks :: s == PASS || s == SKIP
  }

  /** The commits Git reports for the tag before and after fetching, and what `git archive` of the pinned commit writes. */
  datatype GitReport = GitReport(tagged: Option<string>, fetched: Option<string>, submodules: bool, archive: Option<Bytes>)

  /** What the plan pins and how the runtime is configured. */
  datatype Request = Request(destination: Path, expected: string, replaceExisting: bool, maxBytes: nat)

  /** The digest of the bytes at a path. */
  predicate Holds(digest: Bytes -> string, fs: Files, path: Path, expected: string) {
    path in fs && fs[path].File? && digest(fs[path].data) == expected
  }

  /** The destination is as it was, or holds the pinned bytes. */
  predicate Safe(digest: Bytes -> string, before: Files, fs: Files, r: Request) {
    SameAt(before, fs, r.destination) || Holds(digest, fs, r.destination, r.expected)
  }

  /** At every step from `start` on. */
  ghost predicate AlwaysSafe(digest: Bytes -> string, before: Files, history: seq<Files>, start: nat, r: Request) {
    forall k | start <= k < |history| :: Safe(digest, before, history[k], r)
  }

  // ---- Streams ------------------------------------------------------------------------------------

  /** `_sha256_path`: the digest of a file within the byte limit. */
  method Sha256Path(disk: Disk, digest: Bytes -> string, path: Path, maxBytes: nat) returns (r: Option<(string, nat)>)
    requires disk.Valid()
    modifies disk`faulted
    ensures old(disk.faulted) ==> disk.faulted
    ensures r.Some? ==> path in disk.files && disk.files[path].File? && r.value == (digest(disk.files[path].data), |disk.files[path].data|)
    ensures r.Some? ==> r.value.1 <= maxBytes && disk.faulted == old(disk.faulted)
    ensures r.None? ==> disk.faulted || path !in disk.files || !disk.files[path].File? || |disk.files[path].data| > maxBytes
  {
    var seen: Bytes := [];
    while true
      invariant old(disk.faulted) == disk.faulted
      invariant path in disk.files && disk.files[path].File? ==> seen <= disk.files[path].data
      invariant |seen| <= maxBytes
      decreases if path in disk.files && disk.files[path].File? then |disk.files[path].data| - |seen| else 0
    {
      var chunk, ok := disk.ReadChunk(path, |seen|, CHUNK);
      if !ok {
        return None;
      }
      if chunk == [] {
        assert seen == disk.files[path].data;
        return Some((digest(seen), |seen|));
      }
      if |seen| + |chunk| > maxBytes {
        return None;
      }
      seen := seen + chunk;
    }
  }

  /** `_copy_stream`: the source's bytes, chunk by chunk, into a file; the digest of what was written. */
  method CopyStream(disk: Disk, digest: Bytes -> string, source: Bytes, temp: Path, maxBytes: nat) returns (r: Option<string>)
    requires disk.Valid() && temp in disk.files && disk.files[temp] == File([])
    modifies disk
    ensures disk.Valid() && old(disk.history) <= disk.history && (old(disk.faulted) ==> disk.faulted)
    ensures Kept(disk.history, |old(disk.history)|, old(disk.files), {temp}) && OnlyAt(old(disk.files), disk.files, {temp})
    ensures temp in disk.files && disk.files[temp].File?
    ensures r.Some? ==> disk.files[temp] == File(source) && r.value == digest(source)
    ensures r.None? ==> disk.faulted || |source| > maxBytes
  {
    var total := 0;
    while total < |source|
      invariant disk.Valid() && old(disk.history) <= disk.history && total <= |source| && old(disk.faulted) == disk.faulted
      invariant Kept(disk.history, |old(disk.history)|, old(disk.files), {temp}) && OnlyAt(old(disk.files), disk.files, {temp})
      invariant temp in disk.files && disk.files[temp] == File(source[..total])
    {
      var broken: bool := *;
      if broken {
        disk.Fault();
        return None;
      }
      var n: int := *;
      n := if 0 < n <= CHUNK && total + n <= |source| then n else 1;
      if total + n > maxBytes {
        return None;
      }
      var chunk := source[total..total + n];
      ghost var before, files := disk.history, disk.files;
      var ok := disk.Append(temp, chunk);
      KeptExtends(before, disk.history, |old(disk.history)|, old(disk.files), {temp}, files, {temp});
      OnlyAtTransitive(old(disk.files), files, disk.files, {temp}, {temp});
      if !ok {
        return None;
      }
      assert source[..total] + chunk == source[..total + n];
      total := total + n;
    }
    assert source[..total] == source;
    return Some(digest(source));
  }

  // ---- Safety of the steps --------------------------------------------------------------------------

  lemma KeptIsSafe(digest: Bytes -> string, history: seq<Files>, start: nat, before: Files, temp: Path, r: Request)
    requires Kept(history, start, before, {temp}) && temp != r.destination
    ensures AlwaysSafe(digest, before, history, start, r)
  {
    forall k | start <= k < |history|
      ensures Safe(digest, before, history[k], r)
    {
      assert OnlyAt(before, history[k], {temp});
      assert SameAt(before, history[k], r.destination);
    }
  }

  /** What is done to other paths stays safe. */
  lemma SafeExtends(digest: Bytes -> string, before: Files, history: seq<Files>, longer: seq<Files>, start: nat, middle: Files, temp: Path, r: Request)
    requires history <= longer && AlwaysSafe(digest, before, history, start, r) && Safe(digest, before, middle, r)
    requires Kept(longer, |history|, middle, {temp}) && temp != r.destination
    ensures AlwaysSafe(digest, before, longer, start, r)
  {
    forall k | start <= k < |longer|
      ensures Safe(digest, before, longer[k], r)
    {
      if k < |history| {
        assert longer[k] == history[k];
      } else {
        assert OnlyAt(middle, longer[k], {temp});
        assert SameAt(middle, longer[k], r.destination);
      }
    }
  }

  // ---- Shared blocks of the three runtimes ------------------------------------------------------------

  /** The destination check that comes first: a hit, a refusal, or nothing in the way. */
  method CheckDestination(disk: Disk, digest: Bytes -> string, r: Request) returns (settled: Option<Outcome>)
    requires disk.Valid()
    modifies disk`faulted
    ensures old(disk.faulted) ==> disk.faulted
    ensures settled == Some(AlreadyMirrored) ==> Holds(digest, disk.files, r.destination, r.expected) && |disk.files[r.destination].data| <= r.maxBytes
    ensures settled == Some(Failed) ==>
              r.destination in disk.files && (!Holds(digest, disk.files, r.destination, r.expected) || |disk.files[r.destination].data| > r.maxBytes || disk.faulted)
    ensures settled.Some? ==> disk.faulted || !Open(digest, disk.files, r)
    ensures settled == None ==> r.destination in disk.files ==> r.replaceExisting && !Holds(digest, disk.files, r.destination, r.expected)
    ensures settled != Some(Mirrored)
  {
    if r.destination !in disk.files {
      return None;
    }
    var found := Sha256Path(disk, digest, r.destination, r.maxBytes);
    if found.None? {
      return Some(Failed);
    }
    if found.value.0 == r.expected {
      return Some(AlreadyMirrored);
    }
    if !r.replaceExisting {
      return Some(Failed);
    }
    return None;
  }

  /** The end of a run: the destination's digest decides. */
  method VerifyDestination(disk: Disk, digest: Bytes -> string, r: Request) returns (outcome: Outcome, readable: bool)
    requires disk.Valid()
    modifies disk`faulted
    ensures old(disk.faulted) ==> disk.faulted
    ensures outcome == Mirrored || outcome == Failed
    ensures outcome == Mirrored ==> Holds(digest, disk.files, r.destination, r.expected) && |disk.files[r.destination].data| <= r.maxBytes
    ensures outcome == Failed ==>
              disk.faulted || !Holds(digest, disk.files, r.destination, r.expected) || |disk.files[r.destination].data| > r.maxBytes
  {
    var found := Sha256Path(disk, digest, r.destination, r.maxBytes);
    readable := found.Some?;
    outcome := if readable && found.value.0 == r.expected then Mirrored else Failed;
  }

  /** `os.replace` of a verified temporary file, and its removal where that fails. */
  method Publish(disk: Disk, digest: Bytes -> string, temp: Path, r: Request, ghost before: Files, ghost start: nat) returns (ok: bool)
    requires disk.Valid() && temp != r.destination && Holds(digest, disk.files, temp, r.expected)
    requires start <= |disk.history| && Kept(disk.history, start, before, {temp}) && OnlyAt(before, disk.files, {temp})
    modifies disk
    ensures disk.Valid() && old(disk.history) <= disk.history && (old(disk.faulted) ==> disk.faulted)
    ensures AlwaysSafe(digest, before, disk.history, start, r)
    ensures if ok then r.destination in disk.files && disk.files[r.destination] == old(disk.files)[temp] && disk.faulted == old(disk.faulted)
            else disk.faulted && SameAt(before, disk.files, r.destination)
  {
    KeptIsSafe(digest, disk.history, start, before, temp, r);
    ghost var fs, history := disk.files, disk.history;
    ok := disk.Replace(temp, r.destination);
    if ok {
      assert Holds(digest, disk.files, r.destination, r.expected);
    } else {
      var _ := disk.Unlink(temp);
      assert Safe(digest, before, fs, r);
      SafeExtends(digest, before, history, disk.history, start, fs, temp, r);
    }
  }

  /** `temp_path.unlink(missing_ok=True)` on the way out of a run that publishes nothing. */
  method Discard(disk: Disk, temp: Path, ghost before: Files, ghost start: nat)
    requires disk.Valid() && start <= |disk.history| && Kept(disk.history, start, before, {temp}) && OnlyAt(before, disk.files, {temp})
    modifies disk
    ensures disk.Valid() && old(disk.history) <= disk.history && (old(disk.faulted) ==> disk.faulted)
    ensures Kept(disk.history, start, before, {temp}) && OnlyAt(before, disk.files, {temp})
  {
    ghost var fs, history := disk.files, disk.history;
    var _ := disk.Unlink(temp);
    KeptExtends(history, disk.history, start, before, {temp}, fs, {temp});
    assert OnlyAt(fs, disk.files, {temp});
    OnlyAtTransitive(before, fs, disk.files, {temp}, {temp});
  }

  /** What a run promises about the destination, however it went. */
  ghost predicate Delivered(digest: Bytes -> string, before: Files, after: Files, r: Request, outcome: Outcome, faulted: bool) {
    && (outcome != Failed ==> Holds(digest, after, r.destination, r.expected) && |after[r.destination].data| <= r.maxBytes)
    && (outcome == Mirrored ==> !Holds(digest, before, r.destination, r.expected))
    && (r.destination in before && !Holds(digest, before, r.destination, r.expected) && !r.replaceExisting ==> outcome == Failed)
    && (Holds(digest, before, r.destination, r.expected) && |before[r.destination].data| <= r.maxBytes && !faulted ==> outcome == AlreadyMirrored)
  }

  /** A temporary file with the source's bytes, and their digest; nothing where any step fails. */
  method Fetch(disk: Disk, digest: Bytes -> string, source: Option<Bytes>, r: Request) returns (temp: Path, copied: Option<string>)
    requires disk.Valid()
    modifies disk
    ensures disk.Valid() && old(disk.history) <= disk.history && (old(disk.faulted) ==> disk.faulted)
    ensures temp != r.destination
    ensures Kept(disk.history, |old(disk.history)|, old(disk.files), {temp}) && OnlyAt(old(disk.files), disk.files, {temp})
    ensures copied.Some? ==> source.Some? && copied.value == digest(source.value) && temp in disk.files && disk.files[temp] == File(source.value)
    ensures copied.None? ==> disk.faulted || source.None? || |source.value| > r.maxBytes
  {
    ghost var before, start := disk.files, |disk.history|;
    var ok;
    temp, ok := disk.CreateTemp(r.destination);
    if !ok || source.None? {
      return temp, None;
    }
    ghost var history, fs := disk.history, disk.files;
    copied := CopyStream(disk, digest, source.value, temp, r.maxBytes);
    KeptExtends(history, disk.history, start, before, {temp}, fs, {temp});
    OnlyAtTransitive(before, fs, disk.files, {temp}, {temp});
  }

  /** Nothing at the destination stands in the way of a run. */
  predicate Open(digest: Bytes -> string, before: Files, r: Request) {
    r.destination in before ==>
      && r.replaceExisting && before[r.destination].File? && |before[r.destination].data| <= r.maxBytes
      && digest(before[r.destination].data) != r.expected
  }

  // ---- The three runtimes -------------------------------------------------------------------------------

  /** Nothing was written at all. */
  twostate predicate Untouched(disk: Disk)
    reads disk
  {
    disk.files == old(disk.files) && disk.history == old(disk.history)
  }

  /** `execute` on a plain file: `source` is absent where it cannot be opened. */
  method ExecuteBlob(disk: Disk, digest: Bytes -> string, source: Option<Bytes>, r: Request)
      returns (outcome: Outcome, checks: seq<Status>)
    requires disk.Valid()
    modifies disk
    ensures disk.Valid() && old(disk.history) <= disk.history && Reports(outcome, checks) && (old(disk.faulted) ==> disk.faulted)
    ensures AlwaysSafe(digest, old(disk.files), disk.history, |old(disk.history)|, r)
    ensures Delivered(digest, old(disk.files), disk.files, r, outcome, disk.faulted)
    ensures outcome == AlreadyMirrored || Holds(digest, old(disk.files), r.destination, r.expected) ==> Untouched(disk)
    ensures r.destination in old(disk.files) && !r.replaceExisting ==> Untouched(disk)
    ensures !disk.faulted && Open(digest, old(disk.files), r) && source.Some? && |source.value| <= r.maxBytes ==>
              (outcome == Mirrored <==> digest(source.value) == r.expected)
  {
    ghost var before, start := disk.files, |disk.history|;
    var settled := CheckDestination(disk, digest, r);
    if settled.Some? {
      return settled.value, if settled.value == AlreadyMirrored then [SKIP, PASS] else [FAIL];
    }
    var temp, copied := Fetch(disk, digest, source, r);
    if copied.None? || copied.value != r.expected {
      Discard(disk, temp, before, start);
      KeptIsSafe(digest, disk.history, start, before, temp, r);
      return Failed, [FAIL];
    }
    var ok := Publish(disk, digest, temp, r, before, start);
    if !ok {
      return Failed, [FAIL];
    }
    var readable;
    outcome, readable := VerifyDestination(disk, digest, r);
    checks := if outcome == Mirrored then [PASS, PASS] else if readable then [PASS, FAIL] else [FAIL];
  }

  /** `_execute_ansible_collection`: the archive must also be the approved collection. */
  method ExecuteAnsibleCollection(disk: Disk, digest: Bytes -> string, valid: Bytes -> bool, source: Option<Bytes>, r: Request)
      returns (outcome: Outcome, checks: seq<Status>)
    requires disk.Valid()
    modifies disk
    ensures disk.Valid() && old(disk.history) <= disk.history && Reports(outcome, checks) && (old(disk.faulted) ==> disk.faulted)
    ensures AlwaysSafe(digest, old(disk.files), disk.history, |old(disk.history)|, r)
    ensures outcome == Mirrored ==> !Holds(digest, old(disk.files), r.destination, r.expected)
    ensures outcome != Failed ==> Holds(digest, disk.files, r.destination, r.expected) && valid(disk.files[r.destination].data)
                                  && |disk.files[r.destination].data| <= r.maxBytes
    ensures outcome == AlreadyMirrored || Holds(digest, old(disk.files), r.destination, r.expected) ==> Untouched(disk)
    ensures r.destination in old(disk.files) && !r.replaceExisting ==> Untouched(disk)
    ensures r.destination in old(disk.files) && !r.replaceExisting && !Holds(digest, old(disk.files), r.destination, r.expected) ==> outcome == Failed
    ensures Holds(digest, old(disk.files), r.destination, r.expected) && |old(disk.files)[r.destination].data| <= r.maxBytes && !disk.faulted ==>
              outcome == if valid(old(disk.files)[r.destination].data) then AlreadyMirrored else Failed
    ensures !disk.faulted && Open(digest, old(disk.files), r) && source.Some? && |source.value| <= r.maxBytes ==>
              (outcome == Mirrored <==> digest(source.value) == r.expected && valid(source.value))
  {
    ghost var before, start := disk.files, |disk.history|;
    var settled := CheckDestination(disk, digest, r);
    if settled.Some? {
      if settled.value == AlreadyMirrored && valid(disk.files[r.destination].data) {
        return AlreadyMirrored, [PASS, PASS];
      }
      return Failed, [FAIL];
    }
    var temp, copied := Fetch(disk, digest, source, r);
    if copied.None? || copied.value != r.expected || !valid(source.value) {
      Discard(disk, temp, before, start);
      KeptIsSafe(digest, disk.history, start, before, temp, r);
      return Failed, [FAIL];
    }
    var ok := Publish(disk, digest, temp, r, before, start);
    if !ok {
      return Failed, [FAIL];
    }
    var readable;
    outcome, readable := VerifyDestination(disk, digest, r);
    if outcome == Mirrored && !valid(disk.files[r.destination].data) {
      outcome := Failed;
    }
    checks := if outcome == Mirrored then [PASS, PASS, PASS] else [FAIL];
  }

  /** The archive of the pinned commit in a temporary file, and its digest; nothing where any step fails. */
  method FetchArchive(disk: Disk, digest: Bytes -> string, pinned: string, git: GitReport, r: Request) returns (temp: Path, copied: Option<string>)
    requires disk.Valid()
    modifies disk
    ensures disk.Valid() && old(disk.history) <= disk.history && (old(disk.faulted) ==> disk.faulted)
    ensures temp != r.destination
    ensures Kept(disk.history, |old(disk.history)|, old(disk.files), {temp}) && OnlyAt(old(disk.files), disk.files, {temp})
    ensures copied.Some? ==> git.fetched == Some(pinned) && !git.submodules && git.archive.Some? && copied.value == digest(git.archive.value)
    ensures copied.Some? ==> temp in disk.files && disk.files[temp] == File(git.archive.value)
    ensures copied.None? ==>
              disk.faulted || git.fetched != Some(pinned) || git.submodules || git.archive.None? || |git.archive.value| > r.maxBytes
  {
    ghost var before, start := disk.files, |disk.history|;
    var ok;
    temp, ok := disk.CreateTemp(r.destination);
    if !ok || git.fetched != Some(pinned) || git.submodules || git.archive.None? {
      return temp, None;
    }
    ghost var history, fs := disk.history, disk.files;
    ok := disk.Append(temp, git.archive.value);
    assert [] + git.archive.value == git.archive.value;
    KeptExtends(history, disk.history, start, before, {temp}, fs, {temp});
    OnlyAtTransitive(before, fs, disk.files, {temp}, {temp});
    if !ok {
      return temp, None;
    }
    var found := Sha256Path(disk, digest, temp, r.maxBytes);
    copied := if found.Some? then Some(found.value.0) else None;
  }

  /** `_execute_git_release`, given what Git reports. */
  method ExecuteGitRelease(disk: Disk, digest: Bytes -> string, pinned: string, git: GitReport, r: Request)
      returns (outcome: Outcome, checks: seq<Status>)
    requires disk.Valid()
    modifies disk
    ensures disk.Valid() && old(disk.history) <= disk.history && Reports(outcome, checks) && (old(disk.faulted) ==> disk.faulted)
    ensures AlwaysSafe(digest, old(disk.files), disk.history, |old(disk.history)|, r)
    ensures Delivered(digest, old(disk.files), disk.files, r, outcome, disk.faulted)
    ensures outcome == AlreadyMirrored || Holds(digest, old(disk.files), r.destination, r.expected) ==> Untouched(disk)
    ensures r.destination in old(disk.files) && !r.replaceExisting ==> Untouched(disk)
    ensures outcome == Mirrored ==> git.tagged == Some(pinned) && git.fetched == Some(pinned) && !git.submodules
    ensures !disk.faulted && Open(digest, old(disk.files), r) && git.archive.Some? && |git.archive.value| <= r.maxBytes ==>
              (outcome == Mirrored <==> git.tagged == Some(pinned) && git.fetched == Some(pinned) && !git.submodules && digest(git.archive.value) == r.expected)
  {
    ghost var before, start := disk.files, |disk.history|;
    var settled := CheckDestination(disk, digest, r);
    if settled.Some? {
      return settled.value, if settled.value == AlreadyMirrored then [SKIP, PASS] else [FAIL];
    }
    if git.tagged != Some(pinned) {
      return Failed, [FAIL];
    }
    var temp, copied := FetchArchive(disk, digest, pinned, git, r);
    if copied.None? || copied.value != r.expected {
      Discard(disk, temp, before, start);
      KeptIsSafe(digest, disk.history, start, before, temp, r);
      return Failed, if copied.Some? then [PASS, FAIL] else [FAIL];
    }
    var ok := Publish(disk, digest, temp, r, before, start);
    var cleaned: bool := *;
    if !ok || !cleaned {
      if ok {
        disk.Fault();
      }
      return Failed, [FAIL];
    }
    var readable;
    outcome, readable := VerifyDestination(disk, digest, r);
    checks := if outcome == Mirrored then [PASS, PASS, PASS] else [FAIL];
  }

  /**
    Running again after MIRRORED, with the same pin and limit: nothing is written, and without an I/O error the
    answer is ALREADY_MIRRORED. The source need not be there any more.
   */
  method MirrorTwice(disk: Disk, digest: Bytes -> string, source: Option<Bytes>, later: Option<Bytes>, r: Request)
      returns (first: Outcome, second: Outcome, ghost between: Files)
    requires disk.Valid()
    modifies disk
    ensures first == Mirrored ==> disk.files == between && (!disk.faulted ==> second == AlreadyMirrored)
    ensures second == Mirrored ==> first == Failed
  {
    var checks;
    first, checks := ExecuteBlob(disk, digest, source, r);
    between := disk.files;
    second, checks := ExecuteBlob(disk, digest, later, r);
  }

  /** The same of a collection, which is also still valid. */
  method CollectionTwice(disk: Disk, digest: Bytes -> string, valid: Bytes -> bool, source: Option<Bytes>, later: Option<Bytes>, r: Request)
      returns (first: Outcome, second: Outcome, ghost between: Files)
    requires disk.Valid()
    modifies disk
    ensures first == Mirrored ==> disk.files == between && (!disk.faulted ==> second == AlreadyMirrored)
    ensures second == Mirrored ==> first == Failed
  {
    var checks;
    first, checks := ExecuteAnsibleCollection(disk, digest, valid, source, r);
    between := disk.files;
    second, checks := ExecuteAnsibleCollection(disk, digest, valid, later, r);
  }

  /** And of a Git release, whatever Git reports the second time. */
  method GitReleaseTwice(disk: Disk, digest: Bytes -> string, pinned: string, git: GitReport, later: GitReport, r: Request)
      returns (first: Outcome, second: Outcome, ghost between: Files)
    requires disk.Valid()
    modifies disk
    ensures first == Mirrored ==> disk.files == between && (!disk.faulted ==> second == AlreadyMirrored)
    ensures second == Mirrored ==> first == Failed
  {
    var checks;
    first, checks := ExecuteGitRelease(disk, digest, pinned, git, r);
    between := disk.files;
    second, checks := ExecuteGitRelease(disk, digest, pinned, later, r);
  }
}
