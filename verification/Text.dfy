/** The Python string operations the artifact labels go through. */
module Text {

  /** The characters `str.strip()` removes. */
  predicate IsSpace(c: char) {
    || '\t' <= c <= '\r' || '\U{1c}' <= c <= ' ' || c == '\U{85}' || c == '\U{a0}' || c == '\U{1680}'
    || '\U{2000}' <= c <= '\U{200a}' || c == '\U{2028}' || c == '\U{2029}' || c == '\U{202f}' || c == '\U{205f}' || c == '\U{3000}'
  }

  /** The same characters, one by one. */
  const WHITESPACE := {
    '\t', '\n', '\U{0b}', '\U{0c}', '\r', '\U{1c}', '\U{1d}', '\U{1e}', '\U{1f}', ' ', '\U{85}', '\U{a0}', '\U{1680}',
    '\U{2000}', '\U{2001}', '\U{2002}', '\U{2003}', '\U{2004}', '\U{2005}', '\U{2006}', '\U{2007}', '\U{2008}', '\U{2009}',
    '\U{200a}', '\U{2028}', '\U{2029}', '\U{202f}', '\U{205f}', '\U{3000}'
  }

  lemma WhitespaceListed(c: char)
    ensures IsSpace(c) <==> c in WHITESPACE
  {
  }

  function StripLeft(s: string): (r: string)
    ensures r == [] || !IsSpace(r[0])
  {
    if s != [] && IsSpace(s[0]) then StripLeft(s[1..]) else s
  }

  function StripRight(s: string): (r: string)
    ensures r <= s
    ensures r == [] || !IsSpace(r[|r| - 1])
  {
    if s != [] && IsSpace(s[|s| - 1]) then StripRight(s[..|s| - 1]) else s
  }

  /** `s.strip()`. */
  function Strip(s: string): string {
    StripRight(StripLeft(s))
  }

  /** No whitespace at either end. */
  predicate Trimmed(s: string) {
    s == [] || (!IsSpace(s[0]) && !IsSpace(s[|s| - 1]))
  }

  lemma StripIsTrimmed(s: string)
    ensures Trimmed(Strip(s))
    ensures Trimmed(s) ==> Strip(s) == s
  {
    var l := StripLeft(s);
    assert Strip(s) <= l;
  }

  /** `s.split(",")`. */
  function SplitComma(s: string): (parts: seq<string>)
    ensures parts != []
  {
    if s == [] then [[]]
    else
      var rest := SplitComma(s[1..]);
      if s[0] == ',' then [[]] + rest else [[s[0]] + rest[0]] + rest[1..]
  }

  /** `",".join(parts)`. */
  function JoinComma(parts: seq<string>): string {
    if parts == [] then []
    else if |parts| == 1 then parts[0]
    else parts[0] + "," + JoinComma(parts[1..])
  }

  /** `[item.strip() for item in parts if item.strip()]`. */
  function StripNonEmpty(parts: seq<string>): (items: seq<string>)
    ensures forall x | x in items :: x != [] && Trimmed(x)
  {
    if parts == [] then []
    else
      StripIsTrimmed(parts[0]);
      (if Strip(parts[0]) != [] then [Strip(parts[0])] else []) + StripNonEmpty(parts[1..])
  }

  /** The artifact ids a `depends_on` label lists. */
  function DependencyList(list: string): (ids: seq<string>)
    ensures forall x | x in ids :: x != [] && Trimmed(x)
  {
    StripNonEmpty(SplitComma(list))
  }

  lemma {:induction false} SplitFirst(head: string, tail: string)
    requires ',' !in head
    ensures SplitComma(head) == [head]
    ensures SplitComma(head + "," + tail) == [head] + SplitComma(tail)
  {
    var s := head + "," + tail;
    if head == [] {
      assert s[1..] == tail;
    } else {
      assert s[1..] == head[1..] + "," + tail;
      SplitFirst(head[1..], tail);
      assert [head[0]] + head[1..] == head;
    }
  }

  lemma StripNothing()
    ensures StripNonEmpty([[]]) == []
  {
    assert Strip([]) == [];
  }

  lemma StripFirst(id: string, rest: seq<string>)
    requires id != [] && Trimmed(id)
    ensures StripNonEmpty([id] + rest) == [id] + StripNonEmpty(rest)
  {
    StripIsTrimmed(id);
    assert ([id] + rest)[1..] == rest;
  }

  /** Ids written as a comma-separated label are read back unchanged. */
  lemma {:induction false} DependencyListRoundTrip(ids: seq<string>)
    requires forall x | x in ids :: x != [] && Trimmed(x) && ',' !in x
    ensures DependencyList(JoinComma(ids)) == ids
  {
    if ids == [] {
      StripNothing();
    } else {
      var rest := ids[1..];
      assert ids[0] in ids && forall x | x in rest :: x in ids;
      DependencyListRoundTrip(rest);
      SplitFirst(ids[0], JoinComma(rest));
      StripFirst(ids[0], if rest == [] then [] else SplitComma(JoinComma(rest)));
      assert ids == [ids[0]] + rest;
    }
  }

  // ---- Blanks and empty entries ---------------------------------------------------------------------

  /** Nothing but whitespace. */
  predicate Blank(s: string) {
    forall i | 0 <= i < |s| :: IsSpace(s[i])
  }

  lemma {:induction false} StripLeftPadded(left: string, s: string)
    requires Blank(left) && (s == [] || !IsSpace(s[0]))
    ensures StripLeft(left + s) == s
  {
    if left == [] {
      assert left + s == s;
    } else {
      assert (left + s)[1..] == left[1..] + s;
      StripLeftPadded(left[1..], s);
    }
  }

  lemma {:induction false} StripRightPadded(s: string, right: string)
    requires Blank(right) && (s == [] || !IsSpace(s[|s| - 1]))
    ensures StripRight(s + right) == s
  {
    if right == [] {
      assert s + right == s;
    } else {
      assert (s + right)[..|s + right| - 1] == s + right[..|right| - 1];
      StripRightPadded(s, right[..|right| - 1]);
    }
  }

  /** Stripping takes the whitespace around a text away, and nothing else. */
  lemma StripPadded(left: string, s: string, right: string)
    requires Blank(left) && Blank(right) && Trimmed(s)
    ensures Strip(left + s + right) == s
  {
    if s == [] {
      assert left + s + right == (left + right) + [];
      StripLeftPadded(left + right, []);
    } else {
      assert left + s + right == left + (s + right);
      StripLeftPadded(left, s + right);
      StripRightPadded(s, right);
    }
  }

  /** Entries of a list as they may be written: each id with whitespace around it. */
  ghost predicate Padded(parts: seq<string>, ids: seq<string>) {
    |parts| == |ids| && forall i | 0 <= i < |ids| :: PaddedId(parts[i], ids[i])
  }

  ghost predicate PaddedId(part: string, id: string) {
    Trimmed(id) && ',' !in part && exists left, right :: Blank(left) && Blank(right) && part == left + id + right
  }

  function NonEmpty(ids: seq<string>): (r: seq<string>)
    ensures forall x :: x in r <==> x in ids && x != []
  {
    if ids == [] then [] else (if ids[0] != [] then [ids[0]] else []) + NonEmpty(ids[1..])
  }

  lemma {:induction false} SplitJoined(parts: seq<string>)
    requires parts != [] && forall x | x in parts :: ',' !in x
    ensures SplitComma(JoinComma(parts)) == parts
  {
    assert parts[0] in parts;
    SplitFirst(parts[0], JoinComma(parts[1..]));
    if |parts| > 1 {
      assert forall x | x in parts[1..] :: x in parts;
      SplitJoined(parts[1..]);
    }
    assert parts == [parts[0]] + parts[1..];
  }

  lemma {:induction false} StripParts(parts: seq<string>, ids: seq<string>)
    requires Padded(parts, ids)
    ensures StripNonEmpty(parts) == NonEmpty(ids)
  {
    if parts != [] {
      assert PaddedId(parts[0], ids[0]);
      var left, right :| Blank(left) && Blank(right) && parts[0] == left + ids[0] + right;
      StripPadded(left, ids[0], right);
      forall i | 0 <= i < |ids| - 1
        ensures PaddedId(parts[1..][i], ids[1..][i])
      {
        assert PaddedId(parts[i + 1], ids[i + 1]);
      }
      StripParts(parts[1..], ids[1..]);
    }
  }

  /** Whitespace around the ids of a label, and entries without an id, are ignored. */
  lemma BlanksAreIgnored(parts: seq<string>, ids: seq<string>)
    requires parts != [] && Padded(parts, ids)
    ensures DependencyList(JoinComma(parts)) == NonEmpty(ids)
  {
    forall x | x in parts
      ensures ',' !in x
    {
      var i :| 0 <= i < |parts| && parts[i] == x;
      assert PaddedId(parts[i], ids[i]);
    }
    SplitJoined(parts);
    StripParts(parts, ids);
  }
}
