/**
  The part of a file system the mirror uses. Every primitive may fail; every state the disk goes through is
  recorded, so that a crash between any two steps leaves one of the recorded states.
 */
module FileSystem {

  type Path = string
  type Bytes = seq<bv8>

  datatype Node = File(data: Bytes) | Dir(tree: map<string, Bytes>) | Link

  type Files = map<Path, Node>

  /** The two states differ at these paths only. */
  ghost predicate OnlyAt(a: Files, b: Files, paths: set<Path>) {
    forall p | p !in paths :: SameAt(a, b, p)
  }

  predicate SameAt(a: Files, b: Files, p: Path) {
    (p in a <==> p in b) && (p in a ==> a[p] == b[p])
  }

  /** Every state recorded from `start` on differs from `base` at these paths only. */
  ghost predicate Kept(history: seq<Files>, start: nat, base: Files, paths: set<Path>) {
    forall k | start <= k < |history| :: OnlyAt(base, history[k], paths)
  }

  lemma OnlyAtTransitive(a: Files, b: Files, c: Files, paths: set<Path>, more: set<Path>)
    requires OnlyAt(a, b, paths) && OnlyAt(b, c, more)
    ensures OnlyAt(a, c, paths + more)
  {
    forall p | p !in paths + more
      ensures SameAt(a, c, p)
    {
      assert SameAt(a, b, p) && SameAt(b, c, p);
    }
  }

  /** What was kept up to some point and is kept from there is kept throughout. */
  lemma KeptExtends(history: seq<Files>, longer: seq<Files>, start: nat, base: Files, paths: set<Path>, middle: Files, more: set<Path>)
    requires start <= |history| && history <= longer && Kept(history, start, base, paths)
    requires OnlyAt(base, middle, paths) && Kept(longer, |history|, middle, more)
    ensures Kept(longer, start, base, paths + more)
  {
    forall k | start <= k < |longer|
      ensures OnlyAt(base, longer[k], paths + more)
    {
      if k < |history| {
        assert longer[k] == history[k];
        assert OnlyAt(base, history[k], paths);
      } else {
        OnlyAtTransitive(base, middle, longer[k], paths, more);
      }
    }
  }

  class Disk {
    var files: Files
    ghost var faulted: bool
    ghost var history: seq<Files>

    /** The last recorded state is the present one. */
    ghost predicate Valid()
      reads this
    {
      history != [] && history[|history| - 1] == files
    }

    constructor (files: Files)
      ensures Valid() && this.files == files && history == [files] && !faulted
    {
      this.files := files;
      faulted, history := false, [files];
    }

    /** The disk as one step leaves it. */
    ghost method Record()
      requires history != []
      modifies this`history
      ensures Valid() && history == old(history) + [files]
    {
      history := history + [files];
    }

    /** An I/O error. */
    ghost method Fault()
      modifies this`faulted
      ensures faulted
    {
      faulted := true;
    }

    /** A new empty file under a name that is not in use. */
    method CreateTemp(avoid: Path) returns (path: Path, ok: bool)
      requires Valid()
      modifies this
      ensures Valid() && old(history) <= history && (old(faulted) ==> faulted)
      ensures path !in old(files) && path != avoid && Kept(history, |old(history)|, old(files), {path})
      ensures if ok then files == old(files)[path := File([])] && faulted == old(faulted) else files == old(files) && faulted
    {
      path := Unused(avoid);
      ok := *;
      if ok {
        files := files[path := File([])];
        Record();
      } else {
        Fault();
      }
    }

    /** A new empty directory under a name that is not in use. */
    method CreateTempDir(avoid: Path) returns (path: Path, ok: bool)
      requires Valid()
      modifies this
      ensures Valid() && old(history) <= history && (old(faulted) ==> faulted)
      ensures path !in old(files) && path != avoid && Kept(history, |old(history)|, old(files), {path})
      ensures if ok then files == old(files)[path := Dir(map[])] && faulted == old(faulted) else files == old(files) && faulted
    {
      path := Unused(avoid);
      ok := *;
      if ok {
        files := files[path := Dir(map[])];
        Record();
      } else {
        Fault();
      }
    }

    /** Some name without an entry. */
    method Unused(avoid: Path) returns (path: Path)
      ensures path !in files && path != avoid
    {
      path := LongerThanAll(files.Keys + {avoid});
    }

    /** Bytes at the end of a file; a failed write may leave some of them. */
    method Append(path: Path, chunk: Bytes) returns (ok: bool)
      requires Valid() && path in files && files[path].File?
      modifies this
      ensures Valid() && old(history) <= history && (old(faulted) ==> faulted)
      ensures Kept(history, |old(history)|, old(files), {path}) && OnlyAt(old(files), files, {path})
      ensures path in files && files[path].File?
      ensures ok ==> files == old(files)[path := File(old(files)[path].data + chunk)] && faulted == old(faulted)
      ensures !ok ==> faulted
    {
      ok := *;
      var written := |chunk|;
      if !ok {
        written := *;
        written := if 0 <= written <= |chunk| then written else 0;
        Fault();
      }
      files := files[path := File(files[path].data + chunk[..written])];
      Record();
      assert chunk[..|chunk|] == chunk;
    }

    /** `os.replace`: atomic. */
    method Replace(source: Path, destination: Path) returns (ok: bool)
      requires Valid() && source in files && source != destination
      modifies this
      ensures Valid() && old(history) <= history && (old(faulted) ==> faulted)
      ensures if ok then files == old(files)[destination := old(files)[source]] - {source} && history == old(history) + [files] && faulted == old(faulted)
              else files == old(files) && history == old(history) && faulted
    {
      ok := *;
      if ok {
        files := files[destination := files[source]] - {source};
        Record();
      } else {
        Fault();
      }
    }

    /** `unlink(missing_ok=True)`. */
    method Unlink(path: Path) returns (ok: bool)
      requires Valid()
      modifies this
      ensures Valid() && old(history) <= history && (old(faulted) ==> faulted)
      ensures Kept(history, |old(history)|, old(files), {path})
      ensures if ok then files == old(files) - {path} && faulted == old(faulted) else files == old(files) && faulted
    {
      ok := *;
      if ok {
        files := files - {path};
        Record();
      } else {
        Fault();
      }
    }

    /** `shutil.rmtree`: entry by entry, and it may stop anywhere. */
    method RemoveTree(path: Path) returns (ok: bool)
      requires Valid() && path in files
      modifies this
      ensures Valid() && old(history) <= history && (old(faulted) ==> faulted)
      ensures Kept(history, |old(history)|, old(files), {path}) && OnlyAt(old(files), files, {path})
      ensures if ok then files == old(files) - {path} && faulted == old(faulted) else faulted
    {
      while files[path].Dir? && files[path].tree != map[]
        invariant Valid() && old(history) <= history && faulted == old(faulted) && path in files
        invariant Kept(history, |old(history)|, old(files), {path}) && OnlyAt(old(files), files, {path})
        invariant files - {path} == old(files) - {path}
        decreases if files[path].Dir? then |files[path].tree| else 0
      {
        ok := *;
        if !ok {
          Fault();
          return false;
        }
        var tree := files[path].tree;
        var name :| name in tree;
        assert (tree - {name}).Keys == tree.Keys - {name};
        files := files[path := Dir(tree - {name})];
        Record();
      }
      ok := *;
      if !ok {
        Fault();
        return false;
      }
      files := files - {path};
      Record();
    }

    /** One file written inside a directory; a failure may leave some of it. */
    method PutEntry(path: Path, name: string, data: Bytes) returns (ok: bool)
      requires Valid() && path in files && files[path].Dir?
      modifies this
      ensures Valid() && old(history) <= history && (old(faulted) ==> faulted)
      ensures Kept(history, |old(history)|, old(files), {path}) && OnlyAt(old(files), files, {path})
      ensures if ok then files == old(files)[path := Dir(old(files)[path].tree[name := data])] && faulted == old(faulted) else faulted
    {
      ok := *;
      var written := |data|;
      if !ok {
        written := *;
        written := if 0 <= written <= |data| then written else 0;
        Fault();
      }
      files := files[path := Dir(files[path].tree[name := data[..written]])];
      Record();
      assert data[..|data|] == data;
    }

    /** A directory filled file by file; a failure may leave it half filled. */
    method PutTree(path: Path, tree: map<string, Bytes>) returns (ok: bool)
      requires Valid() && path !in files
      modifies this
      ensures Valid() && old(history) <= history && (old(faulted) ==> faulted)
      ensures Kept(history, |old(history)|, old(files), {path}) && OnlyAt(old(files), files, {path})
      ensures ok ==> path in files && files[path] == Dir(tree) && faulted == old(faulted)
      ensures !ok ==> faulted
    {
      ok := *;
      if !ok {
        Fault();
        return false;
      }
      files := files[path := Dir(map[])];
      Record();
      var rest := tree.Keys;
      assert tree - rest == map[];
      while rest != {}
        invariant Valid() && old(history) <= history && faulted == old(faulted) && rest <= tree.Keys
        invariant Kept(history, |old(history)|, old(files), {path}) && OnlyAt(old(files), files, {path})
        invariant path in files && files[path] == Dir(tree - rest)
        decreases |rest|
      {
        ghost var before, longer := files, history;
        var name :| name in rest;
        ok := PutEntry(path, name, tree[name]);
        KeptExtends(longer, history, |old(history)|, old(files), {path}, before, {path});
        OnlyAtTransitive(old(files), before, files, {path}, {path});
        if !ok {
          return false;
        }
        EntryAdded(tree, rest, name);
        rest := rest - {name};
      }
      assert tree - {} == tree;
      return true;
    }

    /** One read of a file, of at most `limit` bytes from `offset`; nothing at its end. */
    method ReadChunk(path: Path, offset: nat, limit: nat) returns (chunk: Bytes, ok: bool)
      requires Valid() && limit > 0
      requires path in files && files[path].File? ==> offset <= |files[path].data|
      modifies this`faulted
      ensures old(faulted) ==> faulted
      ensures if ok then path in files && files[path].File? && faulted == old(faulted) else faulted || path !in files || !files[path].File?
      ensures ok ==> offset + |chunk| <= |files[path].data| && |chunk| <= limit
      ensures ok ==> chunk == files[path].data[offset..offset + |chunk|] && (chunk == [] <==> offset == |files[path].data|)
    {
      chunk, ok := [], *;
      if !ok {
        Fault();
        return;
      }
      if path !in files || !files[path].File? {
        ok := false;
        return;
      }
      var data := files[path].data;
      if offset < |data| {
        var n: int := *;
        n := if 0 < n <= limit && offset + n <= |data| then n else 1;
        chunk := data[offset..offset + n];
      }
    }
  }

  lemma EntryAdded(tree: map<string, Bytes>, rest: set<string>, name: string)
    requires name in rest && rest <= tree.Keys
    ensures (tree - rest)[name := tree[name]] == tree - (rest - {name})
  {
  }

  /** A name longer than any in the set is not in it. */
  method LongerThanAll(names: set<Path>) returns (name: Path)
    ensures name !in names
  {
    name := "";
    var rest := names;
    while rest != {}
      invariant rest <= names && forall p | p in names && p !in rest :: |p| < |name|
      decreases |rest|
    {
      var p :| p in rest;
      rest := rest - {p};
      if |p| >= |name| {
        name := p + "x";
      }
    }
  }
}
