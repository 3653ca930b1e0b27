/**
  How operations are classified (risk.py:7-37) and named when they are planned (main.py:3845-3857).
 */
module Risk {
  import Text

  datatype Level = Read | Low | High | Critical

  const READ_PREFIXES := ["get.", "list.", "read.", "describe.", "discover.", "health.", "logs.", "status.", "inspect."]

  const CRITICAL_MARKERS := [
    "cluster-admin", "cluster_admin", "rbac.", "namespace.delete", "secret.read", "secret.export",
    "docker.privileged", "host.mount", "host_root", "force-push", "force_push",
    "restore", "disaster-recovery", "disaster_recovery", "decommission", "storage.volume.delete", "vm.delete"
  ]

  const HIGH_MARKERS := [
    ".delete", ".remove", ".add", ".replace", ".apply", ".install", ".uninstall", ".upgrade", ".rollback", ".scale", ".restart",
    ".deploy", ".merge", ".push", ".rotate", ".maintenance", "compose.down", "swarm.", "ingress."
  ]

  /** `str.lower()` on ASCII letters. */
  function LowerChar(c: char): char {
    if 'A' <= c <= 'Z' then c + ' ' else c
  }

  function Lower(s: string): (r: string)
    ensures |r| == |s| && forall i | 0 <= i < |s| :: r[i] == LowerChar(s[i])
  {
    seq(|s|, i requires 0 <= i < |s| => LowerChar(s[i]))
  }

  predicate At(s: string, i: nat, part: string) {
    i <= |s| && part <= s[i..]
  }

  /** `part in s`. */
  predicate Contains(s: string, part: string) {
    exists i | 0 <= i <= |s| :: At(s, i, part)
  }

  predicate StartsWithAny(s: string, prefixes: seq<string>) {
    exists p | p in prefixes :: p <= s
  }

  predicate ContainsAny(s: string, parts: seq<string>) {
    exists p | p in parts :: Contains(s, p)
  }

  function Classify(operation: string): Level {
    var op := Lower(Text.Strip(operation));
    if StartsWithAny(op, READ_PREFIXES) then Read
    else if op in {"vm.delete", "snapshot.restore"} then Critical
    else if op in {"vm.create", "vm.clone", "vm.update", "vm.power", "network.attach", "snapshot.create"} then High
    else if ContainsAny(op, CRITICAL_MARKERS) then Critical
    else if ContainsAny(op, HIGH_MARKERS) then High
    else Low
  }

  predicate ApprovalRequired(risk: Level) {
    risk == High || risk == Critical
  }

  const PLANNED_MARKERS := [".apply", ".upgrade", ".remove", ".delete", ".restart", ".scale"]

  /** The operation a mutation's ChangeSet is created with. */
  function PlannedOperation(operation: string): string {
    if ContainsAny(operation, PLANNED_MARKERS) then operation else operation + ".apply"
  }

  /** The name classifies as a read. */
  predicate HasReadPrefix(operation: string) {
    StartsWithAny(Lower(Text.Strip(operation)), READ_PREFIXES)
  }

  // ---- Markers survive stripping and lowering ---------------------------------------------------

  lemma {:induction false} StripLeftKeeps(s: string, part: string)
    requires Contains(s, part) && part != [] && !Text.IsSpace(part[0])
    ensures Contains(Text.StripLeft(s), part)
  {
    if s != [] && Text.IsSpace(s[0]) {
      var i :| 0 <= i <= |s| && At(s, i, part);
      assert i != 0;
      assert s[1..][i - 1..] == s[i..];
      assert At(s[1..], i - 1, part);
      StripLeftKeeps(s[1..], part);
    }
  }

  lemma {:induction false} StripRightKeeps(s: string, part: string)
    requires Contains(s, part) && part != [] && !Text.IsSpace(part[|part| - 1])
    ensures Contains(Text.StripRight(s), part)
  {
    if s != [] && Text.IsSpace(s[|s| - 1]) {
      var i :| 0 <= i <= |s| && At(s, i, part);
      assert i + |part| <= |s| && s[i..][|part| - 1] == part[|part| - 1];
      assert i + |part| != |s|;
      assert s[..|s| - 1][i..] == s[i..][..|s| - 1 - i];
      assert At(s[..|s| - 1], i, part);
      StripRightKeeps(s[..|s| - 1], part);
    }
  }

  lemma LowerKeeps(s: string, part: string)
    requires Contains(s, part) && Lower(part) == part
    ensures Contains(Lower(s), part)
  {
    var i :| 0 <= i <= |s| && At(s, i, part);
    forall n | 0 <= n < |part|
      ensures Lower(s)[i..][n] == part[n]
    {
      assert s[i..][n] == part[n] && Lower(part)[n] == part[n];
    }
    assert At(Lower(s), i, part);
  }

  lemma MarkerSurvives(operation: string, part: string)
    requires Contains(operation, part) && part != [] && !Text.IsSpace(part[0]) && !Text.IsSpace(part[|part| - 1])
    requires Lower(part) == part
    ensures Contains(Lower(Text.Strip(operation)), part)
  {
    StripLeftKeeps(operation, part);
    StripRightKeeps(Text.StripLeft(operation), part);
    LowerKeeps(Text.Strip(operation), part);
  }

  lemma PlannedHasMarker(operation: string)
    ensures exists part | part in PLANNED_MARKERS :: Contains(PlannedOperation(operation), part)
  {
    if !ContainsAny(operation, PLANNED_MARKERS) {
      var planned := operation + ".apply";
      assert planned[|operation|..] == ".apply";
      assert At(planned, |operation|, ".apply") && |operation| <= |planned|;
      assert Contains(planned, ".apply");
      assert PLANNED_MARKERS[0] == ".apply";
      assert ".apply" in PLANNED_MARKERS && planned == PlannedOperation(operation);
    }
  }

  lemma PlannedMarkersAreHigh(part: string)
    requires part in PLANNED_MARKERS
    ensures part in HIGH_MARKERS && part != [] && !Text.IsSpace(part[0]) && !Text.IsSpace(part[|part| - 1]) && Lower(part) == part
  {
    assert HIGH_MARKERS[0] == ".delete" && HIGH_MARKERS[1] == ".remove" && HIGH_MARKERS[4] == ".apply";
    assert HIGH_MARKERS[7] == ".upgrade" && HIGH_MARKERS[9] == ".scale" && HIGH_MARKERS[10] == ".restart";
    assert Lower(part) == part by {
      forall i | 0 <= i < |part|
        ensures LowerChar(part[i]) == part[i]
      {
      }
    }
  }

  // ---- Main results -----------------------------------------------------------------------------

  /** A mutation is planned under HIGH or CRITICAL risk exactly if its name has no read prefix. */
  lemma PlannedNeedsApprovalIff(operation: string)
    ensures ApprovalRequired(Classify(PlannedOperation(operation)))
            <==> !HasReadPrefix(PlannedOperation(operation))
  {
    var planned := PlannedOperation(operation);
    PlannedHasMarker(operation);
    var part :| part in PLANNED_MARKERS && Contains(planned, part);
    PlannedMarkersAreHigh(part);
    MarkerSurvives(planned, part);
    assert ContainsAny(Lower(Text.Strip(planned)), HIGH_MARKERS);
  }

  // ---- Two-person approval ---------------------------------------------------------------------------

  /** The markers of operations that two people must approve. */
  const TWO_PERSON_MARKERS := {
    "cluster-admin", "cluster_admin", "rbac.", "namespace.delete", "secret.read", "secret.export",
    "docker.privileged", "host.mount", "host_root", "force-push", "force_push",
    "restore", "disaster-recovery", "disaster_recovery", "decommission", "storage.volume.delete", "vm.delete"
  }

  lemma MarkersListed(part: string)
    ensures part in CRITICAL_MARKERS <==> part in TWO_PERSON_MARKERS
  {
  }

  predicate Char(s: string, i: nat, c: char) {
    i < |s| && s[i] == c
  }

  /** None of the fragments begins here of which every critical marker holds one. */
  predicate QuietAt(s: string, i: nat) {
    && !Char(s, i, '_')
    && !(Char(s, i, '-') && (Char(s, i + 1, 'a') || Char(s, i + 1, 'p') || Char(s, i + 1, 'r')))
    && !(Char(s, i, 'r') && (Char(s, i + 1, 'b') || (Char(s, i + 1, 'e') && Char(s, i + 2, 't'))))
    && !(Char(s, i, 's') && Char(s, i + 1, 'p'))
    && !(Char(s, i, 'o') && Char(s, i + 1, 'c') && Char(s, i + 2, 'k'))
    && !(Char(s, i, 'm') && (Char(s, i + 1, 'o') && Char(s, i + 2, 'u')))
    && !(Char(s, i, 'o') && Char(s, i + 1, 'r') && Char(s, i + 2, 'e'))
    && !(Char(s, i, 'm') && Char(s, i + 1, 'm') && Char(s, i + 2, 'i'))
    && !(Char(s, i, 'e') && Char(s, i + 1, '.') && Char(s, i + 2, 'd') && Char(s, i + 3, 'e'))
    && !(Char(s, i, 'm') && Char(s, i + 1, '.') && Char(s, i + 2, 'd'))
  }

  ghost predicate Quiet(s: string) {
    forall i: nat | i < |s| :: QuietAt(s, i)
  }

  /** Where a critical marker holds its fragment. */
  lemma AccessFragment(part: string) returns (o: nat)
    requires part in CRITICAL_MARKERS[..8]
    ensures o < |part| && !QuietAt(part, o)
  {
    if part == "cluster-admin" || part == "cluster_admin" {
      o := 7;
    } else if part == "rbac." {
      o := 0;
    } else if part == "namespace.delete" {
      o := 4;
    } else if part == "secret.read" || part == "secret.export" {
      o := 3;
    } else if part == "docker.privileged" {
      o := 1;
    } else {
      o := 5;
    }
  }

  lemma ForceFragment(part: string) returns (o: nat)
    requires part in CRITICAL_MARKERS[8..12]
    ensures o < |part| && !QuietAt(part, o)
  {
    if part == "host_root" || part == "restore" {
      o := 4;
    } else {
      o := 5;
    }
  }

  lemma LossFragment(part: string) returns (o: nat)
    requires part in CRITICAL_MARKERS[12..]
    ensures o < |part| && !QuietAt(part, o)
  {
    if part == "disaster-recovery" || part == "disaster_recovery" {
      o := 8;
    } else if part == "decommission" {
      o := 4;
    } else if part == "storage.volume.delete" {
      o := 13;
    } else {
      o := 1;
    }
  }

  lemma MarkerFragment(part: string) returns (o: nat)
    requires part in CRITICAL_MARKERS
    ensures o < |part| && !QuietAt(part, o)
  {
    assert CRITICAL_MARKERS == CRITICAL_MARKERS[..8] + CRITICAL_MARKERS[8..12] + CRITICAL_MARKERS[12..];
    if part in CRITICAL_MARKERS[..8] {
      o := AccessFragment(part);
    } else if part in CRITICAL_MARKERS[8..12] {
      o := ForceFragment(part);
    } else {
      o := LossFragment(part);
    }
  }

  lemma FragmentInside(s: string, i: nat, part: string, o: nat)
    requires At(s, i, part) && o < |part| && !QuietAt(part, o)
    ensures i + o < |s| && !QuietAt(s, i + o)
  {
    assert forall n | 0 <= n < |part| :: s[i..][n] == part[n] && s[i + n] == part[n];
  }

  lemma QuietIsNotCritical(s: string)
    requires Quiet(s)
    ensures !ContainsAny(s, CRITICAL_MARKERS)
  {
    forall part | part in CRITICAL_MARKERS
      ensures !Contains(s, part)
    {
      if i: nat :| i <= |s| && At(s, i, part) {
        var o := MarkerFragment(part);
        FragmentInside(s, i, part, o);
      }
    }
  }

  predicate PlainChar(c: char) {
    '!' <= c <= '@' || 'a' <= c <= 'z'
  }

  /** Lower case throughout, without whitespace, and without a fragment of a critical marker. */
  ghost predicate Harmless(s: string) {
    s != [] && Quiet(s) && forall i | 0 <= i < |s| :: PlainChar(s[i])
  }

  lemma HarmlessIsKept(s: string)
    requires Harmless(s)
    ensures Lower(Text.Strip(s)) == s
  {
    assert !Text.IsSpace(s[0]) && !Text.IsSpace(s[|s| - 1]);
    Text.StripIsTrimmed(s);
    assert forall i | 0 <= i < |s| :: LowerChar(s[i]) == s[i];
  }

  lemma ApplyIsHarmless(s: string)
    requires Harmless(s)
    ensures Harmless(s + ".apply")
  {
    var t := s + ".apply";
    assert t[|s|..] == ".apply";
    forall i: nat | i < |t|
      ensures QuietAt(t, i) && PlainChar(t[i])
    {
      if i < |s| {
        assert QuietAt(s, i) && t[i] == s[i];
        assert i + 1 < |s| ==> t[i + 1] == s[i + 1];
        assert i + 2 < |s| ==> t[i + 2] == s[i + 2];
        assert i + 3 < |s| ==> t[i + 3] == s[i + 3];
        assert t[|s|] == '.' && t[|s| + 1] == 'a' && t[|s| + 2] == 'p';
      } else {
        assert t[i] == ".apply"[i - |s|];
      }
    }
  }

  lemma MachinesAreHarmless(op: string)
    requires op in {"vm.create", "vm.update", "vm.power", "vm.clone", "network.attach", "snapshot.create"}
    ensures Harmless(op)
  {
    if op == "vm.create" {
      forall i: nat | i < |op|
        ensures QuietAt(op, i) && PlainChar(op[i])
      {
      }
    } else if op == "vm.update" {
      forall i: nat | i < |op|
        ensures QuietAt(op, i) && PlainChar(op[i])
      {
      }
    } else if op == "vm.power" {
      forall i: nat | i < |op|
        ensures QuietAt(op, i) && PlainChar(op[i])
      {
      }
    } else if op == "vm.clone" {
      forall i: nat | i < |op|
        ensures QuietAt(op, i) && PlainChar(op[i])
      {
      }
    } else if op == "network.attach" {
      forall i: nat | i < |op|
        ensures QuietAt(op, i) && PlainChar(op[i])
      {
      }
    } else {
      forall i: nat | i < |op|
        ensures QuietAt(op, i) && PlainChar(op[i])
      {
      }
    }
  }

  /** Unless it reads as a read, an operation is CRITICAL exactly if its name holds one of the markers for two-person approval. */
  lemma CriticalIff(operation: string)
    ensures Classify(operation) == Critical <==>
            !HasReadPrefix(operation) && exists part | part in TWO_PERSON_MARKERS :: Contains(Lower(Text.Strip(operation)), part)
  {
    var op := Lower(Text.Strip(operation));
    HoldsMarkerIff(op);
    if op == "vm.delete" {
      assert At(op, 0, "vm.delete") && Contains(op, "vm.delete");
    } else if op == "snapshot.restore" {
      assert op[9..] == "restore";
      assert At(op, 9, "restore") && Contains(op, "restore");
    } else if op in {"vm.create", "vm.clone", "vm.update", "vm.power", "network.attach", "snapshot.create"} {
      MachinesAreHarmless(op);
      QuietIsNotCritical(op);
    }
  }

  lemma HoldsMarkerIff(op: string)
    ensures ContainsAny(op, CRITICAL_MARKERS) <==> exists part | part in TWO_PERSON_MARKERS :: Contains(op, part)
  {
    forall part
      ensures part in CRITICAL_MARKERS <==> part in TWO_PERSON_MARKERS
    {
      MarkersListed(part);
    }
  }

  /** The markers of operations that take an approval at all. */
  const APPROVAL_MARKERS := {
    ".delete", ".remove", ".add", ".replace", ".apply", ".install", ".uninstall", ".upgrade", ".rollback", ".scale", ".restart",
    ".deploy", ".merge", ".push", ".rotate", ".maintenance", "compose.down", "swarm.", "ingress."
  }

  /** The operations that take one although their names hold no marker. */
  const APPROVAL_NAMES := {"vm.create", "vm.clone", "vm.update", "vm.power", "network.attach", "snapshot.create"}

  lemma HoldsApprovalMarkerIff(op: string)
    ensures ContainsAny(op, HIGH_MARKERS) <==> exists part | part in APPROVAL_MARKERS :: Contains(op, part)
  {
    forall part
      ensures part in HIGH_MARKERS <==> part in APPROVAL_MARKERS
    {
      HighMarkersListed(part);
    }
  }

  lemma HighMarkersListed(part: string)
    ensures part in HIGH_MARKERS <==> part in APPROVAL_MARKERS
  {
  }

  /** The names of reads begin like one of these. */
  const READ_NAMES := {"get.", "list.", "read.", "describe.", "discover.", "health.", "logs.", "status.", "inspect."}

  lemma ReadNamesListed(prefix: string)
    ensures prefix in READ_PREFIXES <==> prefix in READ_NAMES
  {
  }

  lemma ReadIff(operation: string)
    ensures Classify(operation) == Read <==> exists p | p in READ_NAMES :: p <= Lower(Text.Strip(operation))
  {
    forall p
      ensures p in READ_PREFIXES <==> p in READ_NAMES
    {
      ReadNamesListed(p);
    }
  }

  /** What is neither CRITICAL nor a read is HIGH exactly with one of the markers for approval or one of those names, and else LOW. */
  lemma HighIff(operation: string)
    requires Classify(operation) != Read && Classify(operation) != Critical
    ensures var op := Lower(Text.Strip(operation));
            Classify(operation) == (if op in APPROVAL_NAMES || exists part | part in APPROVAL_MARKERS :: Contains(op, part) then High else Low)
  {
    HoldsApprovalMarkerIff(Lower(Text.Strip(operation)));
  }

  /**
    The class of an operation, from its name without surrounding blanks and in lower case: a read by its beginning, else
    CRITICAL by a marker for two-person approval, else HIGH by a marker for approval or by name, else LOW.
   */
  lemma ClassifiedBy(operation: string)
    ensures var op := Lower(Text.Strip(operation));
            Classify(operation) ==
              if exists p | p in READ_NAMES :: p <= op then Read
              else if exists part | part in TWO_PERSON_MARKERS :: Contains(op, part) then Critical
              else if op in APPROVAL_NAMES || exists part | part in APPROVAL_MARKERS :: Contains(op, part) then High
              else Low
  {
    ReadIff(operation);
    CriticalIff(operation);
    if Classify(operation) != Read && Classify(operation) != Critical {
      HighIff(operation);
    }
  }

  /** The markers that a planned name keeps as it is. */
  const PLANNED_ENDINGS := {".apply", ".upgrade", ".remove", ".delete", ".restart", ".scale"}

  lemma PlannedEndingsListed(part: string)
    ensures part in PLANNED_MARKERS <==> part in PLANNED_ENDINGS
  {
  }

  /** A mutation is planned under its own name where that holds such a marker, and under the name with ".apply" added otherwise. */
  lemma PlannedAs(operation: string)
    ensures PlannedOperation(operation) ==
            if exists part | part in PLANNED_ENDINGS :: Contains(operation, part) then operation else operation + ".apply"
  {
    forall part
      ensures part in PLANNED_MARKERS <==> part in PLANNED_ENDINGS
    {
      PlannedEndingsListed(part);
    }
  }

  // ---- Upper and lower case -----------------------------------------------------------------------------

  /** The same character, or the same ASCII letter in either case. */
  predicate SameLetter(x: char, y: char) {
    x == y || ('a' <= x <= 'z' && x as int == y as int + 32) || ('a' <= y <= 'z' && y as int == x as int + 32)
  }

  predicate SameLetters(s: string, t: string) {
    |s| == |t| && forall i | 0 <= i < |s| :: SameLetter(s[i], t[i])
  }

  lemma {:induction false} StripLeftAlike(s: string, t: string)
    requires SameLetters(s, t)
    ensures SameLetters(Text.StripLeft(s), Text.StripLeft(t))
  {
    if s != [] {
      assert SameLetter(s[0], t[0]);
      StripLeftAlike(s[1..], t[1..]);
    }
  }

  lemma {:induction false} StripRightAlike(s: string, t: string)
    requires SameLetters(s, t)
    ensures SameLetters(Text.StripRight(s), Text.StripRight(t))
  {
    if s != [] {
      assert SameLetter(s[|s| - 1], t[|s| - 1]);
      StripRightAlike(s[..|s| - 1], t[..|s| - 1]);
    }
  }

  /** Names that differ in the case of letters only are of one class. */
  lemma CaseDoesNotMatter(a: string, b: string)
    requires SameLetters(a, b)
    ensures Classify(a) == Classify(b)
  {
    StripLeftAlike(a, b);
    StripRightAlike(Text.StripLeft(a), Text.StripLeft(b));
    var s, t := Text.Strip(a), Text.Strip(b);
    forall i | 0 <= i < |s|
      ensures Lower(s)[i] == Lower(t)[i]
    {
      assert SameLetter(s[i], t[i]);
    }
    assert Lower(s) == Lower(t);
  }

  lemma ContainsMore(s: string, t: string, part: string)
    requires Contains(s, part)
    ensures Contains(s + t, part)
  {
    var i :| 0 <= i <= |s| && At(s, i, part);
    assert (s + t)[i..] == s[i..] + t;
    assert At(s + t, i, part);
  }

  lemma MarkersAreTrimmed(part: string)
    requires part in TWO_PERSON_MARKERS
    ensures part != [] && !Text.IsSpace(part[0]) && !Text.IsSpace(part[|part| - 1]) && Lower(part) == part
  {
    assert forall i | 0 <= i < |part| :: LowerChar(part[i]) == part[i];
  }

  /** A name that holds a marker, as it is written, takes two people's approval unless it reads as a read. */
  lemma MarkedIsCritical(operation: string, part: string)
    requires part in TWO_PERSON_MARKERS && Contains(operation, part) && !HasReadPrefix(operation)
    ensures Classify(operation) == Critical
  {
    MarkersAreTrimmed(part);
    MarkerSurvives(operation, part);
    CriticalIff(operation);
  }

  lemma ApprovalMarkersListed(part: string)
    requires part in APPROVAL_MARKERS
    ensures part in HIGH_MARKERS && part != [] && !Text.IsSpace(part[0]) && !Text.IsSpace(part[|part| - 1])
  {
  }

  lemma ApprovalMarkersAreLower(part: string)
    requires part in APPROVAL_MARKERS
    ensures Lower(part) == part
  {
    assert forall i | 0 <= i < |part| :: LowerChar(part[i]) == part[i];
  }

  /** A name that holds such a marker, as it is written, takes an approval unless it reads as a read. */
  lemma MarkedNeedsApproval(operation: string, part: string)
    requires part in APPROVAL_MARKERS && Contains(operation, part) && !HasReadPrefix(operation)
    ensures ApprovalRequired(Classify(operation))
  {
    ApprovalMarkersListed(part);
    ApprovalMarkersAreLower(part);
    MarkerSurvives(operation, part);
    assert ContainsAny(Lower(Text.Strip(operation)), HIGH_MARKERS);
  }

  lemma {:induction false} StripRightKeepsPrefix(s: string, p: string)
    requires p <= s && p != [] && !Text.IsSpace(p[|p| - 1])
    ensures p <= Text.StripRight(s)
  {
    if Text.IsSpace(s[|s| - 1]) {
      assert s != p ==> |p| < |s|;
      StripRightKeepsPrefix(s[..|s| - 1], p);
    }
  }

  lemma PrefixIsRead(operation: string, prefix: string)
    requires prefix in READ_PREFIXES && prefix <= operation && Lower(prefix) == prefix
    requires prefix != [] && !Text.IsSpace(prefix[0]) && !Text.IsSpace(prefix[|prefix| - 1])
    ensures Classify(operation) == Read
  {
    assert Text.StripLeft(operation) == operation;
    StripRightKeepsPrefix(operation, prefix);
    var op := Lower(Text.Strip(operation));
    forall i | 0 <= i < |prefix|
      ensures op[i] == prefix[i]
    {
      assert Lower(prefix)[i] == prefix[i];
    }
    assert op[..|prefix|] == prefix;
  }

  lemma ReadPrefixesAreLower(prefix: string)
    requires prefix in READ_PREFIXES
    ensures Lower(prefix) == prefix && prefix != [] && !Text.IsSpace(prefix[0]) && !Text.IsSpace(prefix[|prefix| - 1])
  {
    assert forall i | 0 <= i < |prefix| :: LowerChar(prefix[i]) == prefix[i];
  }

  /** What begins like a read is one, and takes no approval. */
  lemma ReadsAreRead(operation: string, prefix: string)
    requires prefix in {"get.", "list.", "read.", "describe.", "discover.", "health.", "logs.", "status.", "inspect."} && prefix <= operation
    ensures Classify(operation) == Read && !ApprovalRequired(Classify(operation))
  {
    ReadPrefixesAreLower(prefix);
    PrefixIsRead(operation, prefix);
  }
}
