/**
  How canonical text looks: compact, with the keys of a dictionary in code-point order, and characters outside ASCII as
  they are (canonical.py:8-10).
 */
module CanonicalForm {
  import opened Ordering
  import opened Json
  import opened JsonText

  /** No blank and no control character. */
  predicate Visible(s: string) {
    forall c | c in s :: c > ' '
  }

  /** None in any string or key of the value. */
  predicate VisibleIn(j: Json) {
    match j
    case Str(text) => Visible(text)
    case Arr(items) => forall i | 0 <= i < |items| :: VisibleIn(items[i])
    case Obj(fields) => forall i | 0 <= i < |fields| :: Visible(fields[i].key) && VisibleIn(fields[i].value)
    case _ => true
  }

  lemma VisibleSum(s: string, t: string)
    ensures Visible(s + t) <==> Visible(s) && Visible(t)
  {
    assert forall c :: c in s + t <==> c in s || c in t;
  }

  lemma {:induction false} CharsVisible(s: string, rest: string)
    requires Visible(s) && Visible(rest)
    ensures Visible(WriteChars(s, rest))
  {
    if s != [] {
      assert s[0] in s && forall c | c in s[1..] :: c in s;
      CharsVisible(s[1..], rest);
    }
  }

  lemma StringVisible(s: string, rest: string)
    requires Visible(s) && Visible(rest)
    ensures Visible(WriteString(s, rest))
  {
    CharsVisible(s, "\"" + rest);
  }

  lemma {:induction false} NatVisible(n: nat, rest: string)
    requires Visible(rest)
    ensures Visible(WriteNat(n, rest))
    decreases n
  {
    if n >= 10 {
      NatVisible(n / 10, [Digit(n % 10)] + rest);
    }
  }

  lemma {:induction false} WriteVisible(j: Json, rest: string)
    requires VisibleIn(j) && Visible(rest)
    ensures Visible(Write(j, rest))
    decreases j, 0
  {
    match j
    case Null =>
    case Bool(_) =>
    case Num(number) => NatVisible(if number < 0 then -number else number, rest);
    case Str(text) => StringVisible(text, rest);
    case Arr(items) =>
      if items != [] {
        ItemsVisible(items, rest);
      }
    case Obj(fields) =>
      if fields != [] {
        FieldsVisible(fields, rest);
      }
  }

  lemma {:induction false} ItemsVisible(items: seq<Json>, rest: string)
    requires items != [] && Visible(rest) && forall i | 0 <= i < |items| :: VisibleIn(items[i])
    ensures Visible(WriteItems(items, rest))
    decreases items
  {
    if |items| == 1 {
      WriteVisible(items[0], "]" + rest);
    } else {
      ItemsVisible(items[1..], rest);
      WriteVisible(items[0], "," + WriteItems(items[1..], rest));
    }
  }

  lemma {:induction false} FieldsVisible(fields: seq<Field>, rest: string)
    requires fields != [] && Visible(rest) && forall i | 0 <= i < |fields| :: Visible(fields[i].key) && VisibleIn(fields[i].value)
    ensures Visible(WriteFields(fields, rest))
    decreases fields
  {
    if |fields| == 1 {
      WriteVisible(fields[0].value, "}" + rest);
      StringVisible(fields[0].key, ":" + Write(fields[0].value, "}" + rest));
    } else {
      FieldsVisible(fields[1..], rest);
      var tail := "," + WriteFields(fields[1..], rest);
      WriteVisible(fields[0].value, tail);
      StringVisible(fields[0].key, ":" + Write(fields[0].value, tail));
    }
  }

  lemma {:induction false} NormalizeVisible(j: Json)
    requires VisibleIn(j)
    ensures VisibleIn(Normalize(j))
    decreases j
  {
    match j
    case Arr(items) =>
      forall i | 0 <= i < |items|
        ensures VisibleIn(Normalize(items[i]))
      {
        NormalizeVisible(items[i]);
      }
    case Obj(fields) =>
      SortedKeysAre(fields);
      var sorted := Normalize(j).fields;
      forall i | 0 <= i < |sorted|
        ensures Visible(sorted[i].key) && VisibleIn(sorted[i].value)
      {
        var n := IndexOf(fields, sorted[i].key);
        NormalizeVisible(fields[n].value);
      }
    case _ =>
  }

  /** Canonical text has no blanks of its own: there is one only where a string or a key has one. */
  lemma CanonicalIsCompact(j: Json)
    requires VisibleIn(j)
    ensures Visible(CanonicalJson(j))
  {
    NormalizeVisible(j);
    WriteVisible(Normalize(j), "");
  }

  /** A string without quotes, backslashes and control characters is written as it is, whatever its alphabet. */
  lemma CanonicalString(s: string)
    requires forall c | c in s :: c >= ' ' && c != '"' && c != '\\'
    ensures CanonicalJson(Str(s)) == "\"" + s + "\""
  {
    PlainChars(s, "\"" + "");
  }

  lemma {:induction false} PlainChars(s: string, rest: string)
    requires forall c | c in s :: c >= ' ' && c != '"' && c != '\\'
    ensures WriteChars(s, rest) == s + rest
  {
    if s != [] {
      assert s[0] in s && forall c | c in s[1..] :: c in s;
      PlainChars(s[1..], rest);
      assert s == [s[0]] + s[1..];
    }
  }

  /** The keys of a dictionary are written each once, in code-point order. */
  lemma CanonicalKeyOrder(fields: seq<Field>, i: nat, k: nat)
    requires i < k < |Normalize(Obj(fields)).fields|
    ensures ComesFirst(Normalize(Obj(fields)).fields[i].key, Normalize(Obj(fields)).fields[k].key)
  {
    SortedKeysAre(fields);
    NormalizedKeys(fields);
    var keys := SortedKeys(fields);
    StrLessIff(keys[i], keys[k]);
  }
}
