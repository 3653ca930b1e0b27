/**
  The text `json.dumps` writes with compact separators and `ensure_ascii=False`, a JSON parser
  (strings as in section 7 of RFC 8259), and the round trip between them (canonical.py:8-10).
 */
module JsonText {
  import opened Json
  import opened Wrappers

  // ---- Writing: each function puts the text of a value in front of `rest` -------------------

  function HexDigit(n: nat): char
    requires n < 16
  {
    "0123456789abcdef"[n]
  }

  /** One character of a string literal. */
  function WriteChar(c: char, rest: string): string {
    if c == '"' then "\\\"" + rest
    else if c == '\\' then "\\\\" + rest
    else if c == '\n' then "\\n" + rest
    else if c == '\r' then "\\r" + rest
    else if c == '\t' then "\\t" + rest
    else if c == '\U{0c}' then "\\f" + rest
    else if c == '\U{08}' then "\\b" + rest
    else if c < ' ' then "\\u00" + [HexDigit(c as int / 16), HexDigit(c as int % 16)] + rest
    else [c] + rest
  }

  function WriteChars(s: string, rest: string): string {
    if s == [] then rest else WriteChar(s[0], WriteChars(s[1..], rest))
  }

  function WriteString(s: string, rest: string): string {
    "\"" + WriteChars(s, "\"" + rest)
  }

  function Digit(n: nat): char
    requires n < 10
  {
    "0123456789"[n]
  }

  function WriteNat(n: nat, rest: string): string {
    if n < 10 then [Digit(n)] + rest else WriteNat(n / 10, [Digit(n % 10)] + rest)
  }

  function WriteInt(n: int, rest: string): string {
    if n < 0 then "-" + WriteNat(-n, rest) else WriteNat(n, rest)
  }

  function Write(j: Json, rest: string): string
    decreases j, 0
  {
    match j
    case Null => "null" + rest
    case Bool(truth) => if truth then "true" + rest else "false" + rest
    case Num(number) => WriteInt(number, rest)
    case Str(text) => WriteString(text, rest)
    case Arr(items) => if items == [] then "[]" + rest else "[" + WriteItems(items, rest)
    case Obj(fields) => if fields == [] then "{}" + rest else "{" + WriteFields(fields, rest)
  }

  function WriteItems(items: seq<Json>, rest: string): string
    requires items != []
    decreases items
  {
    Write(items[0], if |items| == 1 then "]" + rest else "," + WriteItems(items[1..], rest))
  }

  function WriteFields(fields: seq<Field>, rest: string): string
    requires fields != []
    decreases fields
  {
    WriteString(fields[0].key, ":" + Write(fields[0].value, if |fields| == 1 then "}" + rest else "," + WriteFields(fields[1..], rest)))
  }

  /** `canonical_json(value)`. */
  function CanonicalJson(j: Json): string {
    Write(Normalize(j), "")
  }

  // ---- Reading ------------------------------------------------------------------------------

  function HexValue(c: char): Option<nat> {
    if '0' <= c <= '9' then Some(c as int - '0' as int)
    else if 'a' <= c <= 'f' then Some(10 + c as int - 'a' as int)
    else if 'A' <= c <= 'F' then Some(10 + c as int - 'A' as int)
    else None
  }

  /** The character of a four-digit escape; a surrogate half is not a character here. */
  function ReadHex(s: string): Option<char>
    requires |s| >= 4
  {
    var a, b, c, d := HexValue(s[0]), HexValue(s[1]), HexValue(s[2]), HexValue(s[3]);
    if a.None? || b.None? || c.None? || d.None? then None
    else
      var n := ((a.value * 16 + b.value) * 16 + c.value) * 16 + d.value;
      if 0xd800 <= n < 0xe000 || n > 0xffff then None else Some(n as char)
  }

  /** The first character of a string literal's body, and the text after it. */
  function ReadChar(s: string): (r: Option<(char, string)>)
    requires s != []
    ensures r.Some? ==> |r.value.1| < |s|
  {
    if s[0] == '"' || s[0] < ' ' then None
    else if s[0] != '\\' then Some((s[0], s[1..]))
    else if |s| < 2 then None
    else match s[1]
      case '"' => Some(('"', s[2..]))
      case '\\' => Some(('\\', s[2..]))
      case '/' => Some(('/', s[2..]))
      case 'b' => Some(('\U{08}', s[2..]))
      case 'f' => Some(('\U{0c}', s[2..]))
      case 'n' => Some(('\n', s[2..]))
      case 'r' => Some(('\r', s[2..]))
      case 't' => Some(('\t', s[2..]))
      case 'u' =>
        if |s| < 6 then None
        else
          var c := ReadHex(s[2..6]);
          if c.None? then None else Some((c.value, s[6..]))
      case _ => None
  }

  /** The body of a string literal up to its closing quote. */
  function ReadChars(s: string): (r: Option<(string, string)>)
    ensures r.Some? ==> |r.value.1| < |s|
    decreases |s|
  {
    if s == [] then None
    else if s[0] == '"' then Some(([], s[1..]))
    else
      var c := ReadChar(s);
      if c.None? then None
      else
        var more := ReadChars(c.value.1);
        if more.None? then None else Some(([c.value.0] + more.value.0, more.value.1))
  }

  predicate IsDigit(c: char) {
    '0' <= c <= '9'
  }

  function ReadDigits(s: string, sofar: nat): (r: (nat, string))
    ensures |r.1| <= |s|
    decreases |s|
  {
    if s != [] && IsDigit(s[0]) then ReadDigits(s[1..], sofar * 10 + (s[0] as int - '0' as int)) else (sofar, s)
  }

  /** A number ends where no digit, point or exponent follows. */
  predicate NumberEnds(s: string) {
    s == [] || !(IsDigit(s[0]) || s[0] == '.' || s[0] == 'e' || s[0] == 'E')
  }

  /** The digits of an integer, without a leading zero. */
  function ReadNat(s: string): (r: Option<(nat, string)>)
    ensures r.Some? ==> |r.value.1| < |s|
  {
    if s == [] || !IsDigit(s[0]) then None
    else
      var r := if s[0] == '0' then (0, s[1..]) else ReadDigits(s[1..], s[0] as int - '0' as int);
      if NumberEnds(r.1) then Some(r) else None
  }

  predicate IsBlank(c: char) {
    c == ' ' || c == '\t' || c == '\n' || c == '\r'
  }

  function Skip(s: string): (r: string)
    ensures |r| <= |s|
  {
    if s != [] && IsBlank(s[0]) then Skip(s[1..]) else s
  }

  /** A repeated key keeps its last value. */
  function LastWins(fields: seq<Field>): seq<Field> {
    if fields == [] then []
    else if fields[0].key in KeySet(fields[1..]) then LastWins(fields[1..])
    else [fields[0]] + LastWins(fields[1..])
  }

  /** The value at the start of `s`, and the text after it. */
  function Read(s: string): (r: Option<(Json, string)>)
    ensures r.Some? ==> |r.value.1| < |s|
    decreases |s|, 1
  {
    var t := Skip(s);
    if t == [] then None
    else if t[0] == '"' then
      var r := ReadChars(t[1..]);
      if r.None? then None else Some((Str(r.value.0), r.value.1))
    else if t[0] == '[' then
      var u := Skip(t[1..]);
      if u != [] && u[0] == ']' then Some((Arr([]), u[1..]))
      else
        var r := ReadItems(t[1..]);
        if r.None? then None else Some((Arr(r.value.0), r.value.1))
    else if t[0] == '{' then
      var u := Skip(t[1..]);
      if u != [] && u[0] == '}' then Some((Obj([]), u[1..]))
      else
        var r := ReadFields(t[1..]);
        if r.None? then None else Some((Obj(LastWins(r.value.0)), r.value.1))
    else ReadScalar(t)
  }

  function ReadScalar(s: string): (r: Option<(Json, string)>)
    requires s != []
    ensures r.Some? ==> |r.value.1| < |s|
  {
    if "null" <= s then Some((Null, s[4..]))
    else if "true" <= s then Some((Bool(true), s[4..]))
    else if "false" <= s then Some((Bool(false), s[5..]))
    else if s[0] == '-' then
      var n := ReadNat(s[1..]);
      if n.None? then None else Some((Num(0 - n.value.0), n.value.1))
    else
      var n := ReadNat(s);
      if n.None? then None else Some((Num(n.value.0), n.value.1))
  }

  /** The items of a non-empty array, up to its closing bracket. */
  function ReadItems(s: string): (r: Option<(seq<Json>, string)>)
    ensures r.Some? ==> |r.value.1| < |s|
    decreases |s|, 2
  {
    var first := Read(s);
    if first.None? then None
    else
      var t := Skip(first.value.1);
      if t != [] && t[0] == ']' then Some(([first.value.0], t[1..]))
      else if t != [] && t[0] == ',' then
        var more := ReadItems(t[1..]);
        if more.None? then None else Some(([first.value.0] + more.value.0, more.value.1))
      else None
  }

  /** The key and value in front, and the text after them. */
  function ReadField(s: string): (r: Option<(Field, string)>)
    ensures r.Some? ==> |r.value.1| < |s|
    decreases |s|, 2
  {
    var t := Skip(s);
    if t == [] || t[0] != '"' then None
    else
      var key := ReadChars(t[1..]);
      if key.None? then None
      else
        var u := Skip(key.value.1);
        if u == [] || u[0] != ':' then None
        else
          var value := Read(u[1..]);
          if value.None? then None else Some((Field(key.value.0, value.value.0), value.value.1))
  }

  /** The fields of a non-empty object, up to its closing brace. */
  function ReadFields(s: string): (r: Option<(seq<Field>, string)>)
    ensures r.Some? ==> |r.value.1| < |s|
    decreases |s|, 3
  {
    var first := ReadField(s);
    if first.None? then None
    else
      var t := Skip(first.value.1);
      if t != [] && t[0] == '}' then Some(([first.value.0], t[1..]))
      else if t != [] && t[0] == ',' then
        var more := ReadFields(t[1..]);
        if more.None? then None else Some(([first.value.0] + more.value.0, more.value.1))
      else None
  }

  /** `json.loads(text)`; an error where Python would raise. */
  function Loads(text: string): Option<Json> {
    var r := Read(text);
    if r.None? || Skip(r.value.1) != [] then None else Some(r.value.0)
  }

  // ---- Round trip -----------------------------------------------------------------------------

  lemma ReadWriteChar(c: char, rest: string)
    ensures WriteChar(c, rest) != [] && WriteChar(c, rest)[0] != '"'
    ensures ReadChar(WriteChar(c, rest)) == Some((c, rest))
  {
    var w := WriteChar(c, rest);
    if c < ' ' && c != '\n' && c != '\r' && c != '\t' && c != '\U{0c}' && c != '\U{08}' {
      var n := c as int;
      assert w[2..6] == ['0', '0', HexDigit(n / 16), HexDigit(n % 16)];
      assert HexValue(HexDigit(n / 16)) == Some(n / 16) && HexValue(HexDigit(n % 16)) == Some(n % 16);
      assert n == n / 16 * 16 + n % 16;
      assert w[6..] == rest;
    }
  }

  lemma {:induction false} ReadWriteChars(s: string, rest: string)
    ensures ReadChars(WriteChars(s, "\"" + rest)) == Some((s, rest))
  {
    if s != [] {
      ReadWriteChars(s[1..], rest);
      ReadWriteChar(s[0], WriteChars(s[1..], "\"" + rest));
      assert [s[0]] + s[1..] == s;
    }
  }

  lemma {:induction false} ReadWriteDigits(n: nat, rest: string)
    ensures var w := WriteNat(n, rest);
            && w != [] && IsDigit(w[0]) && (w[0] == '0' <==> n == 0)
            && ReadDigits(w, 0) == ReadDigits(rest, n)
            && (n == 0 ==> w[1..] == rest)
  {
    if n < 10 {
      assert WriteNat(n, rest)[1..] == rest;
    } else {
      var tail := [Digit(n % 10)] + rest;
      ReadWriteDigits(n / 10, tail);
      assert tail[1..] == rest;
    }
  }

  lemma ReadWriteNat(n: nat, rest: string)
    requires NumberEnds(rest)
    ensures WriteNat(n, rest) != [] && IsDigit(WriteNat(n, rest)[0])
    ensures ReadNat(WriteNat(n, rest)) == Some((n, rest))
  {
    ReadWriteDigits(n, rest);
  }

  /** What a written value starts with. */
  predicate StartsValue(s: string) {
    s != [] && (s[0] in "\"[{ntf-" || IsDigit(s[0]))
  }

  lemma WriteStarts(j: Json, rest: string)
    ensures StartsValue(Write(j, rest)) && Skip(Write(j, rest)) == Write(j, rest)
  {
    if j.Num? {
      ReadWriteDigits(if j.number < 0 then -j.number else j.number, rest);
    }
  }

  lemma {:induction false} LastWinsDistinct(fields: seq<Field>)
    requires forall i, k | 0 <= i < k < |fields| :: fields[i].key != fields[k].key
    ensures LastWins(fields) == fields
  {
    if fields != [] {
      LastWinsDistinct(fields[1..]);
      assert [fields[0]] + fields[1..] == fields;
    }
  }

  /** What may stand behind a written value: nothing that would lengthen a number. */
  lemma NumberEndsHere(c: char, rest: string)
    requires c == ',' || c == ']' || c == '}'
    ensures NumberEnds([c] + rest) && Skip([c] + rest) == [c] + rest
  {
  }

  lemma ReadWriteNumber(n: int, rest: string)
    requires NumberEnds(rest)
    ensures Read(WriteInt(n, rest)) == Some((Num(n), rest))
  {
    var w := WriteInt(n, rest);
    WriteStarts(Num(n), rest);
    if n < 0 {
      ReadWriteNat(-n, rest);
      assert w[1..] == WriteNat(-n, rest);
    } else {
      ReadWriteNat(n, rest);
    }
    assert Read(w) == ReadScalar(w);
  }

  lemma ReadWriteText(s: string, rest: string)
    ensures Read(WriteString(s, rest)) == Some((Str(s), rest))
  {
    ReadWriteChars(s, rest);
    assert WriteString(s, rest)[1..] == WriteChars(s, "\"" + rest);
  }

  lemma ReadWord(j: Json, rest: string)
    requires j.Null? || j.Bool?
    ensures Read(Write(j, rest)) == Some((j, rest))
  {
    var w := Write(j, rest);
    if j.Null? {
      assert w[4..] == rest;
    } else if j.truth {
      assert w[4..] == rest;
    } else {
      assert w[5..] == rest;
    }
    assert Skip(w) == w;
  }

  /** The parser returns the value that was written, and what stood behind it. */
  lemma {:induction false} ReadWrite(j: Json, rest: string)
    requires WellFormed(j) && NumberEnds(rest)
    ensures Read(Write(j, rest)) == Some((j, rest))
    decreases j, 0
  {
    match j
    case Null => ReadWord(j, rest);
    case Bool(_) => ReadWord(j, rest);
    case Num(n) => ReadWriteNumber(n, rest);
    case Str(text) => ReadWriteText(text, rest);
    case Arr(items) =>
      if items != [] {
        ReadWriteItems(items, rest);
        WriteStarts(items[0], if |items| == 1 then "]" + rest else "," + WriteItems(items[1..], rest));
        OpensArray(WriteItems(items, rest), items, rest);
      } else {
        EmptyArray(rest);
      }
    case Obj(fields) =>
      if fields != [] {
        ReadWriteFields(fields, rest);
        assert forall i, k | 0 <= i < k < |fields| :: Keys(fields)[i] != Keys(fields)[k];
        LastWinsDistinct(fields);
        OpensObject(WriteFields(fields, rest), fields, rest);
      } else {
        EmptyObject(rest);
      }
  }

  lemma EmptyArray(rest: string)
    ensures Read("[]" + rest) == Some((Arr([]), rest))
  {
    var w := "[]" + rest;
    assert w[1..] == "]" + rest && w[1..][1..] == rest;
  }

  lemma EmptyObject(rest: string)
    ensures Read("{}" + rest) == Some((Obj([]), rest))
  {
    var w := "{}" + rest;
    assert w[1..] == "}" + rest && w[1..][1..] == rest;
  }

  lemma OpensArray(t: string, items: seq<Json>, rest: string)
    requires StartsValue(t) && ReadItems(t) == Some((items, rest))
    ensures Read("[" + t) == Some((Arr(items), rest))
  {
    assert ("[" + t)[1..] == t;
  }

  lemma OpensObject(t: string, fields: seq<Field>, rest: string)
    requires StartsValue(t) && ReadFields(t) == Some((fields, rest)) && LastWins(fields) == fields
    ensures Read("{" + t) == Some((Obj(fields), rest))
  {
    assert ("{" + t)[1..] == t;
  }

  lemma {:induction false} ReadWriteItems(items: seq<Json>, rest: string)
    requires items != [] && forall i | 0 <= i < |items| :: WellFormed(items[i])
    ensures ReadItems(WriteItems(items, rest)) == Some((items, rest))
    decreases items
  {
    var tail := if |items| == 1 then "]" + rest else "," + WriteItems(items[1..], rest);
    assert WellFormed(items[0]);
    NumberEndsHere(tail[0], tail[1..]);
    assert tail == [tail[0]] + tail[1..];
    ReadWrite(items[0], tail);
    if |items| == 1 {
      assert tail[1..] == rest && items == [items[0]];
    } else {
      assert tail[1..] == WriteItems(items[1..], rest);
      ReadWriteItems(items[1..], rest);
      assert items == [items[0]] + items[1..];
    }
  }

  lemma ReadWriteField(field: Field, tail: string)
    requires Read(Write(field.value, tail)) == Some((field.value, tail))
    ensures ReadField(WriteString(field.key, ":" + Write(field.value, tail))) == Some((field, tail))
  {
    var value := Write(field.value, tail);
    var w := WriteString(field.key, ":" + value);
    ReadWriteChars(field.key, ":" + value);
    assert w[1..] == WriteChars(field.key, "\"" + (":" + value));
    assert Skip(w) == w && Skip(":" + value) == ":" + value;
    assert (":" + value)[1..] == value;
  }

  lemma ReadLastField(s: string, field: Field, rest: string)
    requires ReadField(s) == Some((field, "}" + rest))
    ensures ReadFields(s) == Some(([field], rest))
  {
    assert ("}" + rest)[1..] == rest;
  }

  lemma ReadOneField(s: string, field: Field, t: string, more: seq<Field>, rest: string)
    requires ReadField(s) == Some((field, "," + t)) && ReadFields(t) == Some((more, rest))
    ensures ReadFields(s) == Some(([field] + more, rest))
  {
    assert ("," + t)[1..] == t;
  }

  lemma FieldReads(field: Field, c: char, more: string)
    requires WellFormed(field.value) && (c == ',' || c == '}')
    ensures ReadField(WriteString(field.key, ":" + Write(field.value, [c] + more))) == Some((field, [c] + more))
    decreases field
  {
    NumberEndsHere(c, more);
    ReadWrite(field.value, [c] + more);
    ReadWriteField(field, [c] + more);
  }

  lemma WriteFieldsFirst(fields: seq<Field>, rest: string)
    requires fields != []
    ensures WriteFields(fields, rest) ==
            WriteString(fields[0].key, ":" + Write(fields[0].value, if |fields| == 1 then ['}'] + rest else [','] + WriteFields(fields[1..], rest)))
  {
  }

  lemma ReadFieldsLast(fields: seq<Field>, rest: string)
    requires |fields| == 1
    requires ReadField(WriteString(fields[0].key, ":" + Write(fields[0].value, ['}'] + rest))) == Some((fields[0], ['}'] + rest))
    ensures ReadFields(WriteFields(fields, rest)) == Some((fields, rest))
  {
    WriteFieldsFirst(fields, rest);
    ReadLastField(WriteFields(fields, rest), fields[0], rest);
    assert fields == [fields[0]];
  }

  lemma ReadFieldsMore(fields: seq<Field>, rest: string, t: string)
    requires |fields| > 1 && t == WriteFields(fields[1..], rest) && ReadFields(t) == Some((fields[1..], rest))
    requires ReadField(WriteString(fields[0].key, ":" + Write(fields[0].value, [','] + t))) == Some((fields[0], [','] + t))
    ensures ReadFields(WriteFields(fields, rest)) == Some((fields, rest))
  {
    WriteFieldsFirst(fields, rest);
    ReadOneField(WriteFields(fields, rest), fields[0], t, fields[1..], rest);
    assert fields == [fields[0]] + fields[1..];
  }

  lemma {:induction false} ReadWriteFields(fields: seq<Field>, rest: string)
    requires fields != [] && forall i | 0 <= i < |fields| :: WellFormed(fields[i].value)
    ensures ReadFields(WriteFields(fields, rest)) == Some((fields, rest))
    decreases fields
  {
    assert WellFormed(fields[0].value);
    if |fields| == 1 {
      FieldReads(fields[0], '}', rest);
      ReadFieldsLast(fields, rest);
    } else {
      ReadWriteFields(fields[1..], rest);
      FieldReads(fields[0], ',', WriteFields(fields[1..], rest));
      ReadFieldsMore(fields, rest, WriteFields(fields[1..], rest));
    }
  }

  // ---- What is read has each key once ---------------------------------------------------------

  lemma {:induction false} LastWinsWellFormed(fields: seq<Field>)
    requires forall f | f in fields :: WellFormed(f.value)
    ensures WellFormed(Obj(LastWins(fields)))
    ensures forall f | f in LastWins(fields) :: f in fields
  {
    if fields != [] {
      assert fields[0] in fields && forall f | f in fields[1..] :: f in fields;
      LastWinsWellFormed(fields[1..]);
      var rest := LastWins(fields[1..]);
      assert forall i | 0 <= i < |rest| :: rest[i] in fields[1..];
      if fields[0].key !in KeySet(fields[1..]) {
        forall i | 0 <= i < |rest|
          ensures rest[i].key != fields[0].key
        {
          var n :| 0 <= n < |fields[1..]| && fields[1..][n] == rest[i];
        }
        assert forall i, k | 0 <= i < k < |rest| :: Keys(rest)[i] != Keys(rest)[k];
      }
    }
  }

  lemma {:induction false} ReadWellFormed(s: string)
    ensures Read(s).Some? ==> WellFormed(Read(s).value.0)
    decreases |s|, 1
  {
    var t := Skip(s);
    if Read(s).Some? && t[0] == '[' && Read(s).value.0 != Arr([]) {
      ReadItemsWellFormed(t[1..]);
    } else if Read(s).Some? && t[0] == '{' && Read(s).value.0 != Obj([]) {
      ReadFieldsWellFormed(t[1..]);
      LastWinsWellFormed(ReadFields(t[1..]).value.0);
    }
  }

  lemma {:induction false} ReadItemsWellFormed(s: string)
    ensures ReadItems(s).Some? ==> forall j | j in ReadItems(s).value.0 :: WellFormed(j)
    decreases |s|, 2
  {
    ReadWellFormed(s);
    if ReadItems(s).Some? && |ReadItems(s).value.0| > 1 {
      ReadItemsWellFormed(Skip(Read(s).value.1)[1..]);
    }
  }

  lemma ReadFieldParts(s: string) returns (value: string)
    requires ReadField(s).Some?
    ensures |value| < |s| && Read(value).Some? && ReadField(s).value.0.value == Read(value).value.0
  {
    var t := Skip(s);
    value := Skip(ReadChars(t[1..]).value.1)[1..];
  }

  lemma {:induction false} ReadFieldsWellFormed(s: string)
    ensures ReadFields(s).Some? ==> forall f | f in ReadFields(s).value.0 :: WellFormed(f.value)
    decreases |s|, 2
  {
    if ReadFields(s).Some? {
      var value := ReadFieldParts(s);
      ReadWellFormed(value);
      if |ReadFields(s).value.0| > 1 {
        ReadFieldsWellFormed(Skip(ReadField(s).value.1)[1..]);
      }
    }
  }

  // ---- Main results -----------------------------------------------------------------------------

  /** The canonical text is a JSON text of the value: reading it undoes writing it, up to key order. */
  lemma LoadsCanonical(j: Json)
    ensures Loads(CanonicalJson(j)) == Some(Normalize(j)) && Equivalent(j, Normalize(j))
  {
    NormalizeWellFormed(j);
    ReadWrite(Normalize(j), "");
    NormalizeEquivalent(j);
  }

  /** Whatever the text, what is read from it has each key of a dictionary once. */
  lemma LoadsWellFormed(text: string)
    ensures Loads(text).Some? ==> WellFormed(Loads(text).value)
  {
    ReadWellFormed(text);
  }

  /** Two values have the same canonical text exactly if they differ in key order at most. */
  lemma CanonicalIffEquivalent(a: Json, b: Json)
    ensures CanonicalJson(a) == CanonicalJson(b) <==> Equivalent(a, b)
  {
    LoadsCanonical(a);
    LoadsCanonical(b);
    NormalIffEquivalent(a, b);
  }
}
