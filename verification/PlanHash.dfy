/**
  How a plan carries its own hash: `_finish` writes `plan_hash` into the plan's dictionary, and every later check
  pops that field and hashes the rest again (operations.py:464-466; main.py:2224-2235, 2560-2562, 3890-3895).
  SHA-256 is an arbitrary function on texts; where collisions matter their absence is a stated hypothesis.
 */
module PlanHash {
  import opened Ordering
  import opened Json
  import opened JsonText

  const PLAN_HASH := "plan_hash"

  /** `sha256_hex(value)`. */
  function Sha256Hex(sha: string -> string, j: Json): string {
    sha(CanonicalJson(j))
  }

  ghost predicate CollisionFree(sha: string -> string) {
    forall a, b :: sha(a) == sha(b) ==> a == b
  }

  /** `d.pop(key, None)`. */
  function Without(fields: seq<Field>, key: string): seq<Field> {
    if fields == [] then []
    else if fields[0].key == key then Without(fields[1..], key)
    else [fields[0]] + Without(fields[1..], key)
  }

  lemma {:induction false} WithoutAre(fields: seq<Field>, key: string, f: Field)
    ensures f in Without(fields, key) <==> f in fields && f.key != key
  {
    if fields != [] {
      WithoutAre(fields[1..], key, f);
      assert fields == [fields[0]] + fields[1..];
    }
  }

  lemma InKeySet(fields: seq<Field>, key: string)
    ensures key in KeySet(fields) <==> exists f :: f in fields && f.key == key
  {
    if key in KeySet(fields) {
      var i :| 0 <= i < |fields| && fields[i].key == key;
      assert fields[i] in fields;
    }
    if f :| f in fields && f.key == key {
      var i :| 0 <= i < |fields| && fields[i] == f;
      assert fields[i].key in KeySet(fields);
    }
  }

  lemma WithoutKeys(fields: seq<Field>, key: string)
    ensures KeySet(Without(fields, key)) == KeySet(fields) - {key}
  {
    forall k
      ensures k in KeySet(Without(fields, key)) <==> k in KeySet(fields) && k != key
    {
      InKeySet(Without(fields, key), k);
      InKeySet(fields, k);
      if f :| f in fields && f.key == k && k != key {
        WithoutAre(fields, key, f);
      }
      if f :| f in Without(fields, key) && f.key == k {
        WithoutAre(fields, key, f);
      }
    }
  }

  lemma DistinctCons(x: string, s: seq<string>)
    ensures Distinct([x] + s) <==> x !in s && Distinct(s)
  {
    var all := [x] + s;
    assert forall i | 0 <= i < |s| :: all[i + 1] == s[i];
    if Distinct(all) {
      forall i | 0 <= i < |s|
        ensures s[i] != x
      {
        assert all[0] != all[i + 1];
      }
      forall i, j | 0 <= i < j < |s|
        ensures s[i] != s[j]
      {
        assert all[i + 1] != all[j + 1];
      }
    }
  }

  lemma KeysAreKeySet(fields: seq<Field>, k: string)
    ensures k in Keys(fields) <==> k in KeySet(fields)
  {
    if k in KeySet(fields) {
      var i :| 0 <= i < |fields| && fields[i].key == k;
      assert Keys(fields)[i] == k;
    }
  }

  lemma ConsKeys(f: Field, rest: seq<Field>)
    ensures Distinct(Keys([f] + rest)) <==> f.key !in KeySet(rest) && Distinct(Keys(rest))
  {
    assert Keys([f] + rest) == [f.key] + Keys(rest);
    DistinctCons(f.key, Keys(rest));
    KeysAreKeySet(rest, f.key);
  }

  lemma {:induction false} WithoutDistinct(fields: seq<Field>, key: string)
    requires Distinct(Keys(fields))
    ensures Distinct(Keys(Without(fields, key)))
  {
    if fields != [] {
      assert fields == [fields[0]] + fields[1..];
      ConsKeys(fields[0], fields[1..]);
      WithoutDistinct(fields[1..], key);
      WithoutKeys(fields[1..], key);
      ConsKeys(fields[0], Without(fields[1..], key));
    }
  }

  /** `d[key] = value`: in place if the key is there, otherwise at the end. */
  function Put(fields: seq<Field>, key: string, value: Json): (r: seq<Field>)
    ensures KeySet(r) == KeySet(fields) + {key}
    ensures key !in KeySet(fields) ==> r == fields + [Field(key, value)]
    ensures key in KeySet(fields) ==> r == fields[IndexOf(fields, key) := Field(key, value)]
  {
    if key in KeySet(fields) then
      var i := IndexOf(fields, key);
      var r := fields[i := Field(key, value)];
      assert forall n | 0 <= n < |fields| :: r[n].key == fields[n].key;
      r
    else
      assert forall n | 0 <= n < |fields| :: (fields + [Field(key, value)])[n] == fields[n];
      assert (fields + [Field(key, value)])[|fields|].key == key;
      fields + [Field(key, value)]
  }

  lemma LookupIs(fields: seq<Field>, f: Field)
    requires Distinct(Keys(fields)) && f in fields
    ensures f.key in KeySet(fields) && Lookup(fields, f.key) == f.value
  {
    var i :| 0 <= i < |fields| && fields[i] == f;
    LookupAt(fields, i);
  }

  lemma WithoutLookup(fields: seq<Field>, key: string, other: string)
    requires Distinct(Keys(fields)) && other in KeySet(fields) && other != key
    ensures other in KeySet(Without(fields, key))
    ensures Lookup(Without(fields, key), other) == Lookup(fields, other)
  {
    var f := Field(other, Lookup(fields, other));
    assert f in fields;
    WithoutAre(fields, key, f);
    WithoutDistinct(fields, key);
    LookupIs(Without(fields, key), f);
  }

  lemma WithoutDict(fields: seq<Field>, key: string)
    requires Distinct(Keys(fields))
    ensures Distinct(Keys(Without(fields, key)))
    ensures KeySet(Without(fields, key)) == KeySet(fields) - {key}
  {
    WithoutDistinct(fields, key);
    WithoutKeys(fields, key);
  }

  lemma WithoutEquivalent(a: seq<Field>, b: seq<Field>, key: string)
    requires Distinct(Keys(a)) && Distinct(Keys(b)) && Equivalent(Obj(a), Obj(b))
    ensures Equivalent(Obj(Without(a, key)), Obj(Without(b, key)))
  {
    WithoutDict(a, key);
    WithoutDict(b, key);
    forall other | other in KeySet(Without(a, key))
      ensures Equivalent(Lookup(Without(a, key), other), Lookup(Without(b, key), other))
    {
      WithoutLookup(a, key, other);
      WithoutLookup(b, key, other);
    }
  }

  lemma {:induction false} WithoutAbsent(fields: seq<Field>, key: string)
    requires forall f | f in fields :: f.key != key
    ensures Without(fields, key) == fields
  {
    if fields != [] {
      assert fields[0] in fields && forall f | f in fields[1..] :: f in fields;
      WithoutAbsent(fields[1..], key);
      assert fields == [fields[0]] + fields[1..];
    }
  }

  lemma {:induction false} WithoutAppended(fields: seq<Field>, key: string, value: Json)
    requires forall f | f in fields :: f.key != key
    ensures Without(fields + [Field(key, value)], key) == fields
  {
    var all := fields + [Field(key, value)];
    if fields == [] {
      assert all[1..] == [];
    } else {
      assert all[1..] == fields[1..] + [Field(key, value)];
      assert fields[0] in fields && forall f | f in fields[1..] :: f in fields;
      WithoutAppended(fields[1..], key, value);
      assert fields == [fields[0]] + fields[1..];
    }
  }

  lemma AppendedDict(fields: seq<Field>, key: string, value: Json)
    requires Distinct(Keys(fields)) && key !in KeySet(fields)
    ensures var all := fields + [Field(key, value)];
            Distinct(Keys(all)) && KeySet(all) == KeySet(fields) + {key} && Lookup(all, key) == value
  {
    var all := fields + [Field(key, value)];
    assert forall i | 0 <= i < |fields| :: all[i] == fields[i] && Keys(all)[i] == Keys(fields)[i];
    assert all[|fields|] == Field(key, value);
    assert Distinct(Keys(all)) by {
      assert forall i | 0 <= i < |fields| :: Keys(all)[i] in KeySet(fields);
    }
    LookupAt(all, |fields|);
  }

  /** A dictionary, changed in place by the functions it is handed to. */
  class Dict {
    var fields: seq<Field>

    constructor (initial: seq<Field>)
      ensures fields == initial
    {
      fields := initial;
    }

    /**
      `_finish(plan)`: the hash of the dictionary is written into it. The result passes the check of its hash exactly if
      the dictionary held none before; nothing else in it changes.
     */
    method Finish(sha: string -> string)
      requires Distinct(Keys(fields))
      modifies this
      ensures fields == Finished(sha, old(fields)) && Distinct(Keys(fields))
      ensures CollisionFree(sha) && (forall t :: sha(t) != "") ==> (Verifies(sha, Obj(fields)) <==> PLAN_HASH !in KeySet(old(fields)))
      ensures forall key | key != PLAN_HASH :: Get(Obj(fields), key) == Get(Obj(old(fields)), key)
    {
      ghost var before := fields;
      fields := Put(fields, PLAN_HASH, Str(Sha256Hex(sha, Obj(fields))));
      FinishKeeps(sha, before);
    }
  }

  function Finished(sha: string -> string, fields: seq<Field>): seq<Field> {
    Put(fields, PLAN_HASH, Str(Sha256Hex(sha, Obj(fields))))
  }

  /** The check every consumer of a typed plan makes: pop the hash, recompute, compare. */
  ghost predicate Verifies(sha: string -> string, plan: Json) {
    && plan.Obj? && PLAN_HASH in KeySet(plan.fields)
    && var recorded := Lookup(plan.fields, PLAN_HASH);
       recorded.Str? && recorded.text != "" && Sha256Hex(sha, Obj(Without(plan.fields, PLAN_HASH))) == recorded.text
  }

  // ---- Main results -----------------------------------------------------------------------------

  /** A copy that differs from a hashed plan in key order at most passes the check. */
  lemma CopyVerifies(sha: string -> string, fields: seq<Field>, copy: Json)
    requires forall t :: sha(t) != ""
    requires Distinct(Keys(fields)) && PLAN_HASH !in KeySet(fields)
    requires Equivalent(Obj(Finished(sha, fields)), copy) && Distinct(Keys(copy.fields))
    ensures Verifies(sha, copy)
    ensures Lookup(copy.fields, PLAN_HASH) == Str(Sha256Hex(sha, Obj(fields)))
  {
    var recorded := Str(Sha256Hex(sha, Obj(fields)));
    var finished := fields + [Field(PLAN_HASH, recorded)];
    AppendedDict(fields, PLAN_HASH, recorded);
    assert forall f | f in fields :: f.key != PLAN_HASH;
    WithoutAppended(fields, PLAN_HASH, recorded);
    WithoutEquivalent(finished, copy.fields, PLAN_HASH);
    WithoutDict(copy.fields, PLAN_HASH);
    CanonicalIffEquivalent(Obj(fields), Obj(Without(copy.fields, PLAN_HASH)));
    assert Equivalent(Lookup(finished, PLAN_HASH), Lookup(copy.fields, PLAN_HASH));
  }

  /** Written as text and read back, a hashed plan passes the check. */
  lemma StoredPlanVerifies(sha: string -> string, fields: seq<Field>)
    requires forall t :: sha(t) != ""
    requires Distinct(Keys(fields)) && PLAN_HASH !in KeySet(fields)
    ensures Loads(CanonicalJson(Obj(Finished(sha, fields)))).Some?
    ensures Verifies(sha, Loads(CanonicalJson(Obj(Finished(sha, fields)))).value)
  {
    var finished := Finished(sha, fields);
    AppendedDict(fields, PLAN_HASH, Str(Sha256Hex(sha, Obj(fields))));
    LoadsCanonical(Obj(finished));
    NormalizedKeys(finished);
    SortedKeysAre(finished);
    CopyVerifies(sha, fields, Normalize(Obj(finished)));
  }

  /**
    `_finish` hashes whatever the dictionary holds, so its result verifies exactly if the dictionary held
    no `plan_hash` before; rebinding drops the field first and always verifies.
   */
  lemma FinishVerifiesIff(sha: string -> string, fields: seq<Field>)
    requires CollisionFree(sha) && forall t :: sha(t) != ""
    requires Distinct(Keys(fields))
    ensures Verifies(sha, Obj(Finished(sha, fields))) <==> PLAN_HASH !in KeySet(fields)
    ensures Verifies(sha, Obj(Finished(sha, Without(fields, PLAN_HASH))))
  {
    var bare := Without(fields, PLAN_HASH);
    WithoutDict(fields, PLAN_HASH);
    HashedOnceVerifies(sha, bare);
    if PLAN_HASH !in KeySet(fields) {
      assert forall f | f in fields :: f.key != PLAN_HASH;
      WithoutAbsent(fields, PLAN_HASH);
    } else {
      RehashedFails(sha, fields);
    }
  }

  lemma FinishKeeps(sha: string -> string, fields: seq<Field>)
    requires Distinct(Keys(fields))
    ensures Distinct(Keys(Finished(sha, fields)))
    ensures CollisionFree(sha) && (forall t :: sha(t) != "") ==> (Verifies(sha, Obj(Finished(sha, fields))) <==> PLAN_HASH !in KeySet(fields))
    ensures forall key | key != PLAN_HASH :: Get(Obj(Finished(sha, fields)), key) == Get(Obj(fields), key)
  {
    PutDict(fields, PLAN_HASH, Str(Sha256Hex(sha, Obj(fields))));
    if CollisionFree(sha) && (forall t :: sha(t) != "") {
      FinishVerifiesIff(sha, fields);
    }
    forall key | key != PLAN_HASH
      ensures Get(Obj(Finished(sha, fields)), key) == Get(Obj(fields), key)
    {
      PutKeepsGet(fields, PLAN_HASH, Str(Sha256Hex(sha, Obj(fields))), key);
    }
  }

  lemma HashedOnceVerifies(sha: string -> string, fields: seq<Field>)
    requires forall t :: sha(t) != ""
    requires Distinct(Keys(fields)) && PLAN_HASH !in KeySet(fields)
    ensures Verifies(sha, Obj(Finished(sha, fields)))
  {
    AppendedDict(fields, PLAN_HASH, Str(Sha256Hex(sha, Obj(fields))));
    EquivalentReflexive(Obj(Finished(sha, fields)));
    CopyVerifies(sha, fields, Obj(Finished(sha, fields)));
  }

  lemma RehashedFails(sha: string -> string, fields: seq<Field>)
    requires CollisionFree(sha) && Distinct(Keys(fields)) && PLAN_HASH in KeySet(fields)
    ensures !Verifies(sha, Obj(Finished(sha, fields)))
  {
    var i := IndexOf(fields, PLAN_HASH);
    PutDict(fields, PLAN_HASH, Str(Sha256Hex(sha, Obj(fields))));
    WithoutReplaced(fields, Finished(sha, fields), i);
    WithoutDiffers(fields, PLAN_HASH);
    CanonicalIffEquivalent(Obj(Without(fields, PLAN_HASH)), Obj(fields));
    OtherHashFails(sha, fields, Finished(sha, fields));
  }

  lemma OtherHashFails(sha: string -> string, fields: seq<Field>, finished: seq<Field>)
    requires CollisionFree(sha) && CanonicalJson(Obj(Without(fields, PLAN_HASH))) != CanonicalJson(Obj(fields))
    requires PLAN_HASH in KeySet(finished) && Lookup(finished, PLAN_HASH) == Str(Sha256Hex(sha, Obj(fields)))
    requires Without(finished, PLAN_HASH) == Without(fields, PLAN_HASH)
    ensures !Verifies(sha, Obj(finished))
  {
  }

  lemma WithoutDiffers(fields: seq<Field>, key: string)
    requires key in KeySet(fields)
    ensures !Equivalent(Obj(Without(fields, key)), Obj(fields))
  {
    WithoutKeys(fields, key);
    assert key !in KeySet(Without(fields, key));
  }

  lemma SameKeys(a: seq<Field>, b: seq<Field>)
    requires |a| == |b| && forall i | 0 <= i < |a| :: a[i].key == b[i].key
    ensures Keys(a) == Keys(b)
  {
  }

  lemma {:induction false} WithoutReplaced(a: seq<Field>, b: seq<Field>, i: nat)
    requires |a| == |b| && i < |a| && a[i].key == b[i].key == PLAN_HASH
    requires forall n | 0 <= n < |a| && n != i :: a[n] == b[n]
    ensures Without(a, PLAN_HASH) == Without(b, PLAN_HASH)
  {
    if i > 0 {
      WithoutReplaced(a[1..], b[1..], i - 1);
    } else {
      assert a[1..] == b[1..];
    }
  }

  lemma ReplacedDict(fields: seq<Field>, i: nat, value: Json)
    requires Distinct(Keys(fields)) && i < |fields|
    ensures Distinct(Keys(fields[i := Field(fields[i].key, value)]))
    ensures fields[i].key in KeySet(fields[i := Field(fields[i].key, value)])
    ensures Lookup(fields[i := Field(fields[i].key, value)], fields[i].key) == value
  {
    var r := fields[i := Field(fields[i].key, value)];
    SameKeys(fields, r);
    LookupAt(r, i);
  }

  lemma PutDict(fields: seq<Field>, key: string, value: Json)
    requires Distinct(Keys(fields))
    ensures Distinct(Keys(Put(fields, key, value)))
    ensures key in KeySet(Put(fields, key, value)) && Lookup(Put(fields, key, value), key) == value
  {
    if key in KeySet(fields) {
      ReplacedDict(fields, IndexOf(fields, key), value);
    } else {
      AppendedDict(fields, key, value);
    }
  }

  lemma SameAt(a: seq<Field>, b: seq<Field>, i: nat)
    requires i < |a| && i < |b| && a[i] == b[i] && Distinct(Keys(a)) && Distinct(Keys(b))
    ensures a[i].key in KeySet(a) && a[i].key in KeySet(b) && Lookup(a, a[i].key) == Lookup(b, a[i].key)
  {
    LookupAt(a, i);
    LookupAt(b, i);
  }

  lemma PutElsewhere(fields: seq<Field>, key: string, value: Json, i: nat)
    requires i < |fields| && fields[i].key != key
    ensures i < |Put(fields, key, value)| && Put(fields, key, value)[i] == fields[i]
  {
    if key in KeySet(fields) {
      var n := IndexOf(fields, key);
      assert n != i;
    }
  }

  lemma PutKeeps(fields: seq<Field>, key: string, value: Json, other: string)
    requires Distinct(Keys(fields)) && other in KeySet(fields) && other != key
    ensures Lookup(Put(fields, key, value), other) == Lookup(fields, other)
  {
    var i := IndexOf(fields, other);
    PutElsewhere(fields, key, value, i);
    PutDict(fields, key, value);
    SameAt(fields, Put(fields, key, value), i);
  }

  /** A field under any other key survives the pop and the put of a hash. */
  lemma RehashKeeps(sha: string -> string, fields: seq<Field>, key: string)
    requires Distinct(Keys(fields)) && key != PLAN_HASH
    ensures Get(Obj(Finished(sha, Without(fields, PLAN_HASH))), key) == Get(Obj(fields), key)
  {
    var bare := Without(fields, PLAN_HASH);
    WithoutDict(fields, PLAN_HASH);
    if key in KeySet(fields) {
      WithoutLookup(fields, PLAN_HASH, key);
    }
    PutKeepsGet(bare, PLAN_HASH, Str(Sha256Hex(sha, Obj(bare))), key);
  }

  lemma PutKeepsGet(fields: seq<Field>, key: string, value: Json, other: string)
    requires Distinct(Keys(fields)) && other != key
    ensures Get(Obj(Put(fields, key, value)), other) == Get(Obj(fields), other)
  {
    if other in KeySet(fields) {
      PutKeeps(fields, key, value, other);
    }
  }

  /** The recorded hash binds the plan: two plans that verify under one hash differ in key order at most. */
  lemma HashBindsPlan(sha: string -> string, a: Json, b: Json)
    requires CollisionFree(sha) && Verifies(sha, a) && Verifies(sha, b)
    requires Distinct(Keys(a.fields)) && Distinct(Keys(b.fields))
    requires Lookup(a.fields, PLAN_HASH) == Lookup(b.fields, PLAN_HASH)
    ensures Equivalent(a, b)
  {
    WithoutDict(a.fields, PLAN_HASH);
    WithoutDict(b.fields, PLAN_HASH);
    CanonicalIffEquivalent(Obj(Without(a.fields, PLAN_HASH)), Obj(Without(b.fields, PLAN_HASH)));
    RejoinedEquivalent(a.fields, b.fields, PLAN_HASH);
  }

  lemma RejoinedEquivalent(a: seq<Field>, b: seq<Field>, key: string)
    requires Distinct(Keys(a)) && Distinct(Keys(b)) && key in KeySet(a) && key in KeySet(b)
    requires Lookup(a, key) == Lookup(b, key) && Equivalent(Obj(Without(a, key)), Obj(Without(b, key)))
    ensures Equivalent(Obj(a), Obj(b))
  {
    WithoutKeys(a, key);
    WithoutKeys(b, key);
    assert KeySet(a) == KeySet(Without(a, key)) + {key} && KeySet(b) == KeySet(Without(b, key)) + {key};
    forall other | other in KeySet(a)
      ensures Equivalent(Lookup(a, other), Lookup(b, other))
    {
      if other != key {
        WithoutLookup(a, key, other);
        WithoutLookup(b, key, other);
      } else {
        EquivalentReflexive(Lookup(a, other));
      }
    }
  }

  /**
    A ChangeSet stores the canonical text of its plan beside the hash. Read back unmodified, the plan has
    that hash; and whatever text is stored, a plan read from it that has the hash is the planned one.
   */
  lemma StoredChangesetPlan(sha: string -> string, plan: Json, text: string)
    requires CollisionFree(sha)
    ensures Loads(CanonicalJson(plan)).Some? && Sha256Hex(sha, Loads(CanonicalJson(plan)).value) == Sha256Hex(sha, plan)
    ensures Loads(text).Some? ==>
              (Sha256Hex(sha, Loads(text).value) == Sha256Hex(sha, plan) <==> Equivalent(Loads(text).value, plan))
  {
    LoadsCanonical(plan);
    CanonicalIffEquivalent(plan, Normalize(plan));
    if Loads(text).Some? {
      CanonicalIffEquivalent(Loads(text).value, plan);
    }
  }
}
