/**
  JSON values as Python's `json` module sees them: an object keeps the order in which its keys were
  inserted. `canonical_json` sorts the keys first (canonical.py:8-10), so what it writes depends only on
  the value up to key order. Floats and non-string keys are not modelled. A list of fields that repeats a key,
  which no dictionary does, is read by its first field of that key.
 */
module Json {
  import opened Ordering

  datatype Json =
    | Null
    | Bool(truth: bool)
    | Num(number: int)
    | Str(text: string)
    | Arr(items: seq<Json>)
    | Obj(fields: seq<Field>)

  datatype Field = Field(key: string, value: Json)

  function Keys(fields: seq<Field>): (keys: seq<string>)
    ensures |keys| == |fields| && forall i | 0 <= i < |fields| :: keys[i] == fields[i].key
  {
    seq(|fields|, i requires 0 <= i < |fields| => fields[i].key)
  }

  function KeySet(fields: seq<Field>): (keys: set<string>)
    ensures forall i | 0 <= i < |fields| :: fields[i].key in keys
    ensures forall k | k in keys :: exists i :: 0 <= i < |fields| && fields[i].key == k
  {
    set i | 0 <= i < |fields| :: fields[i].key
  }

  /** A dictionary has each key once, and so has every dictionary inside it. */
  ghost predicate WellFormed(j: Json) {
    match j
    case Arr(items) => forall i | 0 <= i < |items| :: WellFormed(items[i])
    case Obj(fields) =>
      && Distinct(Keys(fields))
      && forall i | 0 <= i < |fields| :: WellFormed(fields[i].value)
    case _ => true
  }

  function IndexOf(fields: seq<Field>, key: string): (i: nat)
    requires key in KeySet(fields)
    ensures i < |fields| && fields[i].key == key
  {
    if fields[0].key == key then 0
    else
      assert fields == [fields[0]] + fields[1..];
      1 + IndexOf(fields[1..], key)
  }

  /** `d[key]`. */
  function Lookup(fields: seq<Field>, key: string): (value: Json)
    requires key in KeySet(fields)
    ensures exists i :: 0 <= i < |fields| && fields[i] == Field(key, value)
  {
    fields[IndexOf(fields, key)].value
  }

  /** `d.get(key)`, with anything but a dictionary read as an empty one. */
  function Get(j: Json, key: string): Json {
    if j.Obj? && key in KeySet(j.fields) then Lookup(j.fields, key) else Null
  }

  lemma LookupAt(fields: seq<Field>, i: nat)
    requires i < |fields| && Distinct(Keys(fields))
    ensures Lookup(fields, fields[i].key) == fields[i].value
  {
    assert Keys(fields)[IndexOf(fields, fields[i].key)] == Keys(fields)[i];
  }

  // ---- Documents, key by key ----------------------------------------------------------------

  predicate Says(document: Json, key: string, value: Json) {
    Get(document, key) == value
  }

  predicate Apart(fields: seq<Field>, m: nat, n: nat)
    requires m < |fields| && n < |fields|
  {
    fields[m].key != fields[n].key
  }

  ghost predicate KeysApart(fields: seq<Field>) {
    forall m: nat, n: nat {:trigger Apart(fields, m, n)} | m < n < |fields| :: Apart(fields, m, n)
  }

  /** The only field with a key is the one that is read. */
  lemma OnlyWithKey(fields: seq<Field>, i: nat)
    requires i < |fields| && forall n | 0 <= n < |fields| && n != i :: fields[n].key != fields[i].key
    ensures Get(Obj(fields), fields[i].key) == fields[i].value
  {
  }

  lemma FieldSays(fields: seq<Field>, i: nat, key: string, value: Json)
    requires KeysApart(fields) && i < |fields| && fields[i] == Field(key, value)
    ensures Says(Obj(fields), key, value)
  {
    forall n: nat | n < |fields| && n != i
      ensures fields[n].key != fields[i].key
    {
      assert Apart(fields, n, i) || Apart(fields, i, n);
    }
    OnlyWithKey(fields, i);
  }

  lemma LookupInside(fields: seq<Field>, key: string)
    requires key in KeySet(fields)
    ensures Lookup(fields, key) < Obj(fields)
  {
  }

  /** Equal up to the order of keys, at every depth. */
  predicate Equivalent(a: Json, b: Json)
    decreases a
  {
    match a
    case Arr(items) => b.Arr? && |items| == |b.items| && forall i | 0 <= i < |items| :: Equivalent(items[i], b.items[i])
    case Obj(fields) =>
      && b.Obj? && KeySet(fields) == KeySet(b.fields)
      && forall key | key in KeySet(fields) :: Equivalent(Lookup(fields, key), Lookup(b.fields, key))
    case _ => a == b
  }

  lemma {:induction false} EquivalentReflexive(a: Json)
    ensures Equivalent(a, a)
    decreases a
  {
    match a
    case Arr(items) =>
      forall i | 0 <= i < |items|
        ensures Equivalent(items[i], items[i])
      {
        EquivalentReflexive(items[i]);
      }
    case Obj(fields) =>
      forall key | key in KeySet(fields)
        ensures Equivalent(Lookup(fields, key), Lookup(fields, key))
      {
        EquivalentReflexive(Lookup(fields, key));
      }
    case _ =>
  }

  lemma {:induction false} EquivalentSymmetric(a: Json, b: Json)
    requires Equivalent(a, b)
    ensures Equivalent(b, a)
    decreases a
  {
    match a
    case Arr(items) =>
      forall i | 0 <= i < |items|
        ensures Equivalent(b.items[i], items[i])
      {
        EquivalentSymmetric(items[i], b.items[i]);
      }
    case Obj(fields) =>
      forall key | key in KeySet(fields)
        ensures Equivalent(Lookup(b.fields, key), Lookup(fields, key))
      {
        EquivalentSymmetric(Lookup(fields, key), Lookup(b.fields, key));
      }
    case _ =>
  }

  lemma {:induction false} EquivalentTransitive(a: Json, b: Json, c: Json)
    requires Equivalent(a, b) && Equivalent(b, c)
    ensures Equivalent(a, c)
    decreases a
  {
    match a
    case Arr(items) =>
      forall i | 0 <= i < |items|
        ensures Equivalent(items[i], c.items[i])
      {
        EquivalentTransitive(items[i], b.items[i], c.items[i]);
      }
    case Obj(fields) =>
      forall key | key in KeySet(fields)
        ensures Equivalent(Lookup(fields, key), Lookup(c.fields, key))
      {
        EquivalentTransitive(Lookup(fields, key), Lookup(b.fields, key), Lookup(c.fields, key));
      }
    case _ =>
  }

  /** Reading one key does not tell equivalent values apart. */
  lemma EquivalentGet(a: Json, b: Json, key: string)
    requires Equivalent(a, b)
    ensures Equivalent(Get(a, key), Get(b, key))
  {
  }

  /** With the same keys at the same places, objects are compared place by place. */
  lemma EquivalentInPlace(a: seq<Field>, b: seq<Field>)
    requires |a| == |b| && Distinct(Keys(a)) && forall i | 0 <= i < |a| :: a[i].key == b[i].key
    ensures Equivalent(Obj(a), Obj(b)) <==> forall i | 0 <= i < |a| :: Equivalent(a[i].value, b[i].value)
  {
    assert Keys(a) == Keys(b);
    forall i | 0 <= i < |a|
      ensures Lookup(a, a[i].key) == a[i].value && Lookup(b, a[i].key) == b[i].value
    {
      LookupAt(a, i);
      LookupAt(b, i);
    }
    assert KeySet(a) == KeySet(b) by {
      assert forall i | 0 <= i < |a| :: a[i].key in KeySet(b) && b[i].key in KeySet(a);
    }
  }

  // ---- Sorting the keys -------------------------------------------------------------------

  /** Each key once. */
  function Unique(keys: seq<string>): (r: seq<string>)
    ensures Distinct(r) && forall k :: k in r <==> k in keys
  {
    if keys == [] then []
    else
      assert keys == [keys[0]] + keys[1..];
      var rest := Unique(keys[1..]);
      if keys[0] in rest then rest else [keys[0]] + rest
  }

  function SortedKeys(fields: seq<Field>): seq<string> {
    Sort(StrLess, Unique(Keys(fields)))
  }

  lemma SortedKeysAre(fields: seq<Field>)
    ensures forall k :: k in SortedKeys(fields) <==> k in KeySet(fields)
    ensures Increasing(StrLess, SortedKeys(fields)) && Distinct(SortedKeys(fields))
  {
    var keys := Unique(Keys(fields));
    assert forall k :: k in SortedKeys(fields) <==> k in multiset(SortedKeys(fields));
    assert forall k :: k in keys <==> k in multiset(keys);
    KeysMatch(fields);
    StrLessStrictTotal();
    SortDistinct(StrLess, keys);
    IncreasingDistinct(StrLess, SortedKeys(fields));
  }

  lemma KeysMatch(fields: seq<Field>)
    ensures forall k :: k in Keys(fields) <==> k in KeySet(fields)
  {
    forall k | k in KeySet(fields)
      ensures k in Keys(fields)
    {
      var i :| 0 <= i < |fields| && fields[i].key == k;
      assert Keys(fields)[i] == k;
    }
  }

  /** Every object with its keys in increasing order: what `sort_keys=True` writes. */
  function Normalize(j: Json): Json
    decreases j, 0
  {
    match j
    case Arr(items) => Arr(NormalizeItems(items))
    case Obj(fields) =>
      SortedKeysAre(fields);
      Obj(NormalizeFields(fields, SortedKeys(fields)))
    case _ => j
  }

  function NormalizeItems(items: seq<Json>): (r: seq<Json>)
    ensures |r| == |items| && forall i | 0 <= i < |items| :: r[i] == Normalize(items[i])
    decreases items, 0
  {
    if items == [] then [] else [Normalize(items[0])] + NormalizeItems(items[1..])
  }

  function NormalizeFields(fields: seq<Field>, keys: seq<string>): (r: seq<Field>)
    requires forall k | k in keys :: k in KeySet(fields)
    ensures |r| == |keys| && forall i | 0 <= i < |keys| :: r[i] == Field(keys[i], Normalize(Lookup(fields, keys[i])))
    decreases fields, |keys|
  {
    if keys == [] then []
    else [Field(keys[0], Normalize(Lookup(fields, keys[0])))] + NormalizeFields(fields, keys[1..])
  }

  lemma NormalizedKeys(fields: seq<Field>)
    ensures Keys(Normalize(Obj(fields)).fields) == SortedKeys(fields)
    ensures KeySet(Normalize(Obj(fields)).fields) == KeySet(fields)
  {
    SortedKeysAre(fields);
    KeysMatch(Normalize(Obj(fields)).fields);
  }

  lemma NormalizedLookup(fields: seq<Field>, key: string)
    requires key in KeySet(fields)
    ensures key in KeySet(Normalize(Obj(fields)).fields)
    ensures Lookup(Normalize(Obj(fields)).fields, key) == Normalize(Lookup(fields, key))
  {
    NormalizedKeys(fields);
    SortedKeysAre(fields);
    var r := Normalize(Obj(fields)).fields;
    var i :| 0 <= i < |r| && r[i].key == key;
    LookupAt(r, i);
  }

  lemma {:induction false} NormalizeWellFormed(j: Json)
    ensures WellFormed(Normalize(j))
    decreases j
  {
    match j
    case Arr(items) =>
      forall i | 0 <= i < |items|
        ensures WellFormed(Normalize(items[i]))
      {
        NormalizeWellFormed(items[i]);
      }
    case Obj(fields) =>
      SortedKeysAre(fields);
      NormalizedKeys(fields);
      var r := Normalize(j).fields;
      forall i | 0 <= i < |r|
        ensures WellFormed(r[i].value)
      {
        var key := SortedKeys(fields)[i];
        LookupInside(fields, key);
        NormalizeWellFormed(Lookup(fields, key));
      }
    case _ =>
  }

  /** Sorting the keys changes nothing but their order. */
  lemma {:induction false} NormalizeEquivalent(j: Json)
    ensures Equivalent(j, Normalize(j))
    decreases j
  {
    match j
    case Arr(items) =>
      forall i | 0 <= i < |items|
        ensures Equivalent(items[i], Normalize(items[i]))
      {
        NormalizeEquivalent(items[i]);
      }
    case Obj(fields) =>
      NormalizedKeys(fields);
      forall key | key in KeySet(fields)
        ensures Equivalent(Lookup(fields, key), Lookup(Normalize(j).fields, key))
      {
        NormalizedLookup(fields, key);
        LookupInside(fields, key);
        NormalizeEquivalent(Lookup(fields, key));
      }
    case _ =>
  }

  ghost predicate SameValues(a: seq<Field>, b: seq<Field>) {
    KeySet(a) == KeySet(b) && forall key | key in KeySet(a) :: Normalize(Lookup(a, key)) == Normalize(Lookup(b, key))
  }

  lemma SameNormalFields(a: seq<Field>, b: seq<Field>)
    requires Normalize(Obj(a)) == Normalize(Obj(b))
    ensures SameValues(a, b)
  {
    NormalizedKeys(a);
    NormalizedKeys(b);
    forall key | key in KeySet(a)
      ensures Normalize(Lookup(a, key)) == Normalize(Lookup(b, key))
    {
      NormalizedLookup(a, key);
      NormalizedLookup(b, key);
    }
  }

  lemma SameSortedKeys(a: seq<Field>, b: seq<Field>)
    requires KeySet(a) == KeySet(b)
    ensures SortedKeys(a) == SortedKeys(b)
  {
    SortedKeysAre(a);
    SortedKeysAre(b);
    StrLessStrictTotal();
    assert Elems(SortedKeys(a)) == Elems(SortedKeys(b));
    IncreasingUnique(StrLess, SortedKeys(a), SortedKeys(b));
  }

  lemma {:induction false} SameNormalizedFields(a: seq<Field>, b: seq<Field>, keys: seq<string>)
    requires forall k | k in keys :: k in KeySet(a) && k in KeySet(b) && Normalize(Lookup(a, k)) == Normalize(Lookup(b, k))
    ensures NormalizeFields(a, keys) == NormalizeFields(b, keys)
  {
    if keys != [] {
      assert keys[0] in keys && forall k | k in keys[1..] :: k in keys;
      SameNormalizedFields(a, b, keys[1..]);
    }
  }

  lemma NormalOf(fields: seq<Field>, keys: seq<string>)
    requires keys == SortedKeys(fields)
    ensures (forall k :: k in keys <==> k in KeySet(fields)) && Normalize(Obj(fields)) == Obj(NormalizeFields(fields, keys))
  {
    SortedKeysAre(fields);
  }

  lemma {:induction false} SameFieldsNormal(a: seq<Field>, b: seq<Field>)
    requires SameValues(a, b)
    ensures Normalize(Obj(a)) == Normalize(Obj(b))
  {
    SameSortedKeys(a, b);
    var keys := SortedKeys(a);
    NormalOf(a, keys);
    NormalOf(b, keys);
    SameNormalizedFields(a, b, keys);
  }

  /** Two values have one normal form exactly if they differ in key order at most. */
  lemma {:induction false} NormalIffEquivalent(a: Json, b: Json)
    ensures Normalize(a) == Normalize(b) <==> Equivalent(a, b)
    decreases a
  {
    match a
    case Arr(items) =>
      if b.Arr? && |items| == |b.items| {
        forall i | 0 <= i < |items|
          ensures Normalize(items[i]) == Normalize(b.items[i]) <==> Equivalent(items[i], b.items[i])
        {
          NormalIffEquivalent(items[i], b.items[i]);
        }
        SameItems(items, b.items);
      } else if b.Arr? {
        assert |NormalizeItems(items)| != |NormalizeItems(b.items)|;
      }
    case Obj(fields) =>
      if b.Obj? && KeySet(fields) == KeySet(b.fields) {
        forall key | key in KeySet(fields)
          ensures Normalize(Lookup(fields, key)) == Normalize(Lookup(b.fields, key)) <==> Equivalent(Lookup(fields, key), Lookup(b.fields, key))
        {
          LookupInside(fields, key);
          NormalIffEquivalent(Lookup(fields, key), Lookup(b.fields, key));
        }
      }
      if b.Obj? && Normalize(a) == Normalize(b) {
        SameNormalFields(fields, b.fields);
      } else if b.Obj? && SameValues(fields, b.fields) {
        SameFieldsNormal(fields, b.fields);
      }
    case _ =>
  }

  lemma SameItems(a: seq<Json>, b: seq<Json>)
    requires |a| == |b|
    ensures NormalizeItems(a) == NormalizeItems(b) <==> forall i | 0 <= i < |a| :: Normalize(a[i]) == Normalize(b[i])
  {
    if NormalizeItems(a) == NormalizeItems(b) {
      forall i | 0 <= i < |a|
        ensures Normalize(a[i]) == Normalize(b[i])
      {
        assert NormalizeItems(a)[i] == NormalizeItems(b)[i];
      }
    }
  }
}
