/**
  Exactly which ends of a live preview allow a ChangeSet that needs approval to start twice: those that find it approved,
  or past its approval but neither expired nor stale. The runs exist for every operation of HIGH risk.
 */
module SecondStarts {
  import opened Json
  import opened Wrappers
  import opened Tables
  import opened Handlers
  import opened Ledger
  import opened Runs
  import opened Safety
  import opened Witnesses
  import opened StartOnce
  import Policy
  import Risk

  // ---- Runs in which live previews end late in one state only ----------------------------------------------

  predicate EndsBeforeOrIn(d: Db, id: string, s: State) {
    id in d.changesets && (BeforeApproval(d.changesets[id].state) || d.changesets[id].state == s)
  }

  ghost predicate PreviewsEndIn(states: seq<Db>, events: seq<Event>, id: string, s: State)
    requires |states| == |events| + 1
  {
    forall n | 0 <= n < |events| && EndsPreview(events[n], id) :: EndsBeforeOrIn(states[n], id, s)
  }

  /** A run to `d` in which live previews of the ChangeSet, of this operation, end before its approval or in state `s`. */
  ghost predicate Leads(w: World, operation: string, states: seq<Db>, events: seq<Event>, s: State, d: Db) {
    && IsRun(w, states, events) && PreviewsEndIn(states, events, "c", s) && states[|events|] == d
    && "c" in d.changesets && d.changesets["c"].operation == operation
  }

  lemma EndsOn(was: seq<Db>, did: seq<Event>, id: string, s: State, e: Event, b: Db)
    requires |was| == |did| + 1 && PreviewsEndIn(was, did, id, s) && (EndsPreview(e, id) ==> EndsBeforeOrIn(was[|did|], id, s))
    ensures PreviewsEndIn(was + [b], did + [e], id, s)
  {
    var states, events := was + [b], did + [e];
    forall n | 0 <= n < |events| && EndsPreview(events[n], id)
      ensures EndsBeforeOrIn(states[n], id, s)
    {
      if n < |did| {
        assert events[n] == did[n] && states[n] == was[n];
      }
    }
  }

  lemma SameOperation(w: World, states: seq<Db>, events: seq<Event>, k: nat, id: string)
    requires IsRun(w, states, events) && k < |events| && id in states[k].changesets
    ensures id in states[k + 1].changesets && states[k + 1].changesets[id].operation == states[k].changesets[id].operation
  {
    StepKeeps(w, states, events, k);
    assert SameIdentity(states[k].changesets[id], states[k + 1].changesets[id]);
  }

  lemma LeadsOn(w: World, operation: string, was: seq<Db>, did: seq<Event>, s: State, a: Db, e: Event, b: Db)
      returns (states: seq<Db>, events: seq<Event>)
    requires Leads(w, operation, was, did, s, a) && Next(w, a, e, b) && (EndsPreview(e, "c") ==> EndsBeforeOrIn(a, "c", s))
    ensures Leads(w, operation, states, events, s, b)
  {
    states, events := RunExtends(w, was, did, e, b);
    EndsOn(was, did, "c", s, e, b);
    SameOperation(w, states, events, |did|, "c");
  }

  /** Nothing but the ChangeSet is there yet. */
  predicate JustPlanned(w: World, d: Db, preview: Option<Preview>) {
    && IsIn(w, d, if preview.Some? then Previewed else Planned) && d.changesets["c"].preview == preview
    && d == Empty().(changesets := d.changesets)
  }

  lemma FirstStep(w: World, operation: string, preview: Option<Preview>, s: State) returns (states: seq<Db>, events: seq<Event>, d: Db)
    requires Risk.Classify(operation) == Risk.High
    ensures Leads(w, operation, states, events, s, d) && JustPlanned(w, d, preview)
  {
    d := IsPlanned(w, operation, preview);
    RunStarts(w);
    states, events := RunExtends(w, [Empty()], [], Plan("c", RowFor(w, operation, preview)), d);
    EndsOn([Empty()], [], "c", s, Plan("c", RowFor(w, operation, preview)), d);
  }

  /** Such a run at whose end a ChangeSet of this operation, which needs approval, was started twice. */
  ghost predicate StartsTwice(w: World, operation: string, states: seq<Db>, events: seq<Event>, id: string, s: State) {
    && IsRun(w, states, events) && PreviewsEndIn(states, events, id, s)
    && id in states[|events|].changesets && states[|events|].changesets[id].approvalRequired
    && states[|events|].changesets[id].operation == operation
    && StartsOf(states[|events|].starts, id) >= 2
  }

  lemma RequestStep(w: World, operation: string, was: seq<Db>, did: seq<Event>, s: State, a: Db) returns (states: seq<Db>, events: seq<Event>, d: Db)
    requires Leads(w, operation, was, did, s, a) && IsIn(w, a, Previewed)
    ensures Leads(w, operation, states, events, s, d) && IsIn(w, d, AwaitingApproval) && d == SetState(a, "c", AwaitingApproval)
  {
    d := ApprovalIsRequested(w, a);
    states, events := LeadsOn(w, operation, was, did, s, a, RequestApproval("c"), d);
  }

  lemma ApprovalStep(w: World, operation: string, was: seq<Db>, did: seq<Event>, s: State, a: Db, i: string, approver: string)
      returns (states: seq<Db>, events: seq<Event>, d: Db)
    requires Leads(w, operation, was, did, s, a) && IsIn(w, a, AwaitingApproval) && NoneCounts(a) && i !in a.approvals && approver != "alice"
    requires forall r :: w.mac(r) != ""
    ensures Leads(w, operation, states, events, s, d) && Startable(w, d, [i]) && Approves(w, a, i, 600, d)
  {
    d := OneApproval(w, a, i, approver, 600);
    states, events := LeadsOn(w, operation, was, did, s, a, Approve("c", i, approver, a.changesets["c"].planHash, 600, "n"), d);
  }

  /** What requesting and granting approval changes. */
  ghost predicate Grants(a: Db, i: string, d: Db) {
    && d == a.(changesets := d.changesets, approvals := d.approvals)
    && d.approvals.Keys == a.approvals.Keys + {i} && d.approvals[i].expiresAt == Min(a.now + 600, 3600)
    && (forall x | x in a.approvals && x != i :: d.approvals[x] == a.approvals[x])
    && "c" in a.changesets && "c" in d.changesets && d.changesets["c"].preview == a.changesets["c"].preview
  }

  lemma ApprovalGrants(w: World, a: Db, b: Db, i: string, d: Db)
    requires "c" in a.changesets && b == SetState(a, "c", AwaitingApproval) && Approves(w, b, i, 600, d)
    ensures Grants(a, i, d)
  {
  }

  /** Approval is requested and granted. */
  lemma ApprovalRound(w: World, operation: string, was: seq<Db>, did: seq<Event>, s: State, a: Db, i: string, approver: string)
      returns (states: seq<Db>, events: seq<Event>, d: Db)
    requires Leads(w, operation, was, did, s, a) && IsIn(w, a, Previewed) && NoneCounts(a) && i !in a.approvals && approver != "alice"
    requires forall r :: w.mac(r) != ""
    ensures Leads(w, operation, states, events, s, d) && Startable(w, d, [i]) && Grants(a, i, d)
  {
    var b;
    states, events, b := RequestStep(w, operation, was, did, s, a);
    states, events, d := ApprovalStep(w, operation, states, events, s, b, i, approver);
    ApprovalGrants(w, a, b, i, d);
  }

  // ---- Started directly ---------------------------------------------------------------------------------------

  predicate ShownLive(c: Changeset) {
    c.preview.Some? && c.preview.value.source == "kubernetes-broker"
  }

  /** The ChangeSet has a live preview, and none of its approvals counts. */
  predicate Renewable(w: World, d: Db, s: State) {
    IsIn(w, d, s) && NoneCounts(d) && ShownLive(d.changesets["c"])
  }

  function DirectRequest(d: Db, ids: seq<string>): Prepared
    requires "c" in d.changesets && d.changesets["c"].preview.Some? && "t" in d.targets
  {
    var t := TicketFor(d, "c", ForPreview(d.changesets["c"].preview.value.preconditions), TICKET_SECONDS);
    Prepared(Direct, "", "c", ids, t, d.targets["t"], d.now, d.generation)
  }

  lemma DirectReads(w: World, d: Db, i: string) returns (p: Prepared)
    requires Startable(w, d, [i]) && ShownLive(d.changesets["c"])
    ensures DirectReadOk(w, d, p) && CanWrite(d, p) && p.changesetId == "c" && p.approvals == [i]
  {
    PlanReads(w);
    EquivalentReflexive(TARGET);
    p := DirectRequest(d, [i]);
  }

  lemma BeginsNext(w: World, d: Db, p: Prepared)
    requires DirectReadOk(w, d, p) && CanWrite(d, p)
    ensures Next(w, d, Begin(p, ""), Written(d, p))
  {
  }

  /** The other approvals do not count, and the one spent is consumed. */
  lemma LeavesNoneCounting(w: World, d: Db, p: Prepared, i: string)
    requires IsIn(w, d, Approved) && ShownLive(d.changesets["c"]) && CanWrite(d, p) && p.changesetId == "c" && p.approvals == [i]
    requires forall x | x in d.approvals && x != i :: d.approvals[x].status != Granted || d.approvals[x].expiresAt < d.now
    ensures Renewable(w, Written(d, p), Executing) && Written(d, p).approvals.Keys == d.approvals.Keys
  {
    WrittenFields(d, p);
    WrittenTargets(d, p);
    assert Spendable(d, [i][0]);
  }

  lemma WrittenTargets(d: Db, p: Prepared)
    requires CanWrite(d, p)
    ensures Written(d, p).targets == d.targets
  {
  }

  lemma ExecuteStep(w: World, operation: string, was: seq<Db>, did: seq<Event>, s: State, a: Db, i: string)
      returns (states: seq<Db>, events: seq<Event>, d: Db)
    requires Leads(w, operation, was, did, s, a) && Startable(w, a, [i])
    requires ShownLive(a.changesets["c"])
    requires forall x | x in a.approvals && x != i :: a.approvals[x].status != Granted || a.approvals[x].expiresAt < a.now
    ensures Leads(w, operation, states, events, s, d) && Renewable(w, d, Executing)
    ensures StartsOf(d.starts, "c") == StartsOf(a.starts, "c") + 1 && d.approvals.Keys == a.approvals.Keys
  {
    var p := DirectReads(w, a, i);
    BeginsNext(w, a, p);
    LeavesNoneCounting(w, a, p, i);
    WrittenFields(a, p);
    Policy.StartCounted(a.starts, Start(p, a.now, a.generation), "c");
    d := Written(a, p);
    states, events := LeadsOn(w, operation, was, did, s, a, Begin(p, ""), d);
  }

  /** From a preview to a start: approval is requested and granted, and the ChangeSet executed. */
  lemma DirectRound(w: World, operation: string, was: seq<Db>, did: seq<Event>, s: State, a: Db, i: string)
      returns (states: seq<Db>, events: seq<Event>, d: Db)
    requires Leads(w, operation, was, did, s, a) && Renewable(w, a, Previewed) && i !in a.approvals && forall r :: w.mac(r) != ""
    ensures Leads(w, operation, states, events, s, d) && Renewable(w, d, Executing)
    ensures StartsOf(d.starts, "c") == StartsOf(a.starts, "c") + 1 && d.approvals.Keys == a.approvals.Keys + {i}
  {
    var b;
    states, events, b := ApprovalRound(w, operation, was, did, s, a, i, "bob");
    states, events, d := ExecuteStep(w, operation, states, events, s, b, i);
  }

  lemma PreviewEnds(w: World, operation: string, was: seq<Db>, did: seq<Event>, s: State, a: Db, t: State, report: Option<Preview>)
      returns (states: seq<Db>, events: seq<Event>, d: Db)
    requires Leads(w, operation, was, did, s, a) && IsIn(w, a, t) && (BeforeApproval(t) || t == s)
    ensures Leads(w, operation, states, events, s, d) && IsIn(w, d, Previewed) && d == a.(changesets := d.changesets)
    ensures d.changesets["c"].preview == if report.Some? then report else a.changesets["c"].preview
  {
    d := WithChangeset(a, "c", a.changesets["c"].(preview := if report.Some? then report else a.changesets["c"].preview, state := Previewed));
    states, events := LeadsOn(w, operation, was, did, s, a, Finish("c", report, Previewed), d);
  }

  /** Where a started ChangeSet can be brought without its policy changing or its hour passing. */
  predicate PastApproval(s: State) {
    || s == Executing || s == Executed || s == Failed || s == Rejected || s == Cancelled || s == PolicyDenied || s == PreviewFailed
  }

  lemma DecisionStep(w: World, operation: string, was: seq<Db>, did: seq<Event>, a: Db, s: State) returns (states: seq<Db>, events: seq<Event>, d: Db)
    requires Leads(w, operation, was, did, s, a) && Renewable(w, a, Executing) && (s == Rejected || s == Cancelled)
    ensures Leads(w, operation, states, events, s, d) && Renewable(w, d, s) && d.starts == a.starts && d.approvals.Keys == a.approvals.Keys
  {
    d := Ended(a, "c", s);
    states, events := LeadsOn(w, operation, was, did, s, a, if s == Rejected then Reject("c") else Cancel("c"), d);
  }

  lemma FinishStep(w: World, operation: string, was: seq<Db>, did: seq<Event>, a: Db, s: State) returns (states: seq<Db>, events: seq<Event>, d: Db)
    requires Leads(w, operation, was, did, s, a) && Renewable(w, a, Executing) && (s == Executed || s == Failed || s == PolicyDenied || s == PreviewFailed)
    ensures Leads(w, operation, states, events, s, d) && Renewable(w, d, s) && d.starts == a.starts && d.approvals.Keys == a.approvals.Keys
  {
    d := WithChangeset(a, "c", a.changesets["c"].(state := s));
    states, events := LeadsOn(w, operation, was, did, s, a, Finish("c", None, s), d);
  }

  /** Executions end, and even a running ChangeSet may be rejected or cancelled. */
  lemma ExecutionEnds(w: World, operation: string, was: seq<Db>, did: seq<Event>, a: Db, s: State)
      returns (states: seq<Db>, events: seq<Event>, d: Db)
    requires Leads(w, operation, was, did, s, a) && Renewable(w, a, Executing) && PastApproval(s)
    ensures Leads(w, operation, states, events, s, d) && Renewable(w, d, s) && d.starts == a.starts && d.approvals.Keys == a.approvals.Keys
  {
    if s == Executing {
      states, events, d := was, did, a;
    } else if s == Rejected || s == Cancelled {
      states, events, d := DecisionStep(w, operation, was, did, a, s);
    } else {
      states, events, d := FinishStep(w, operation, was, did, a, s);
    }
  }

  /** Previewed live and started directly. */
  lemma FirstRound(w: World, operation: string, was: seq<Db>, did: seq<Event>, s: State, planned: Db)
      returns (states: seq<Db>, events: seq<Event>, d: Db)
    requires Leads(w, operation, was, did, s, planned) && JustPlanned(w, planned, None) && forall r :: w.mac(r) != ""
    ensures Leads(w, operation, states, events, s, d) && Renewable(w, d, Executing) && d.approvals.Keys == {"a"} && StartsOf(d.starts, "c") == 1
  {
    var a;
    states, events, a := PreviewEnds(w, operation, was, did, s, planned, Planned, Some(Preview("kubernetes-broker", Null)));
    states, events, d := DirectRound(w, operation, states, events, s, a, "a");
  }

  /** Brought to `s`, previewed once more, and started again. */
  lemma SecondRound(w: World, operation: string, was: seq<Db>, did: seq<Event>, s: State, started: Db) returns (states: seq<Db>, events: seq<Event>)
    requires Leads(w, operation, was, did, s, started) && Renewable(w, started, Executing) && PastApproval(s) && forall r :: w.mac(r) != ""
    requires started.approvals.Keys == {"a"} && StartsOf(started.starts, "c") == 1
    ensures StartsTwice(w, operation, states, events, "c", s)
  {
    var a, b, c;
    states, events, a := ExecutionEnds(w, operation, was, did, started, s);
    states, events, b := PreviewEnds(w, operation, states, events, s, a, s, None);
    states, events, c := DirectRound(w, operation, states, events, s, b, "b");
  }

  lemma StartsTwiceDirectly(w: World, operation: string, s: State) returns (states: seq<Db>, events: seq<Event>)
    requires Risk.Classify(operation) == Risk.High && PastApproval(s) && forall r :: w.mac(r) != ""
    ensures StartsTwice(w, operation, states, events, "c", s)
  {
    var a;
    states, events, a := FirstStep(w, operation, None, s);
    states, events, a := FirstRound(w, operation, states, events, s, a);
    states, events := SecondRound(w, operation, states, events, s, a);
  }

  // ---- Started by a job ---------------------------------------------------------------------------------------

  lemma RequestIsWritten(w: World, d: Db, p: Prepared, i: string) returns (e: Db)
    requires ReadFor(d, p, [i]) && Spendable(d, i) && "c" in d.changesets && "j" in d.operationJobs
    ensures Next(w, d, Write(p), e) && e.starts == d.starts + [Start(p, d.now, d.generation)] && e.inFlight == d.inFlight
    ensures "c" in e.changesets && SameIdentity(d.changesets["c"], e.changesets["c"]) && "j" in e.operationJobs
    ensures forall x | x != i :: Spendable(e, x) <==> Spendable(d, x)
  {
    e := Written(d, p);
    WrittenFields(d, p);
    WrittenJob(w, d, p);
  }

  lemma WriteStep(w: World, operation: string, was: seq<Db>, did: seq<Event>, s: State, a: Db, p: Prepared, i: string)
      returns (states: seq<Db>, events: seq<Event>, d: Db)
    requires Leads(w, operation, was, did, s, a) && ReadFor(a, p, [i]) && Spendable(a, i) && "c" in a.changesets && "j" in a.operationJobs
    ensures Leads(w, operation, states, events, s, d) && d.starts == a.starts + [Start(p, a.now, a.generation)] && d.inFlight == a.inFlight
    ensures "c" in d.changesets && SameIdentity(a.changesets["c"], d.changesets["c"]) && "j" in d.operationJobs
    ensures forall x | x != i :: Spendable(d, x) <==> Spendable(a, x)
  {
    d := RequestIsWritten(w, a, p, i);
    states, events := LeadsOn(w, operation, was, did, s, a, Write(p), d);
  }

  /** The job is authorized and checked. */
  lemma CheckRound(w: World, operation: string, was: seq<Db>, did: seq<Event>, s: State, a: Db, i: string)
      returns (states: seq<Db>, events: seq<Event>, d: Db, p: Prepared)
    requires Leads(w, operation, was, did, s, a) && Startable(w, a, [i]) && JobCanStart(w, a) && w.hash(Obj([])) != ""
    ensures Leads(w, operation, states, events, s, d) && JobCanStart(w, d) && ReadFor(d, p, [i])
    ensures d == a.(operationJobs := d.operationJobs, inFlight := a.inFlight + {p})
  {
    var b;
    b, d, p := JobIsChecked(w, a, [i]);
    states, events := LeadsOn(w, operation, was, did, s, a, Authorize("j", [i]), b);
    states, events := LeadsOn(w, operation, states, events, s, b, Read(p, w.sign(p.ticket)), d);
  }

  /** The ChangeSet is approved by bob, and its job planned and checked. */
  lemma CheckedFirst(w: World, operation: string, was: seq<Db>, did: seq<Event>, a: Db, preview: Preview)
      returns (states: seq<Db>, events: seq<Event>, d: Db, p: Prepared)
    requires w.hash(Obj([])) != "" && (forall r :: w.mac(r) != "") && Leads(w, operation, was, did, Approved, a) && JustPlanned(w, a, Some(preview))
    ensures Leads(w, operation, states, events, Approved, d) && ReadFor(d, p, ["a"]) && JobCanStart(w, d) && IsIn(w, d, Approved)
    ensures d.now == 0 && d.starts == [] && d.approvals.Keys == {"a"} && Spendable(d, "a") && d.approvals["a"].expiresAt == 600
  {
    var b;
    states, events, b := ApprovalRound(w, operation, was, did, Approved, a, "a", "bob");
    assert Spendable(b, ["a"][0]);
    var c := JobIsAdded(w, b, ["a"]);
    states, events := LeadsOn(w, operation, states, events, Approved, b, AddJob("p", OperationPlan("c", TypedFor(w)), "j", JobFor(w, b)), c);
    states, events, d, p := CheckRound(w, operation, states, events, Approved, c, "a");
  }

  /** Its approval has run out when a live preview ends, and it is approved by carol and checked once more. */
  lemma CheckedAgain(w: World, operation: string, was: seq<Db>, did: seq<Event>, a: Db)
      returns (states: seq<Db>, events: seq<Event>, d: Db, q: Prepared)
    requires w.hash(Obj([])) != "" && (forall r :: w.mac(r) != "") && Leads(w, operation, was, did, Approved, a) && IsIn(w, a, Approved) && JobCanStart(w, a)
    requires a.now == 0 && a.approvals.Keys == {"a"} && Spendable(a, "a") && a.approvals["a"].expiresAt == 600
    ensures Leads(w, operation, states, events, Approved, d) && ReadFor(d, q, ["b"]) && a.inFlight <= d.inFlight && d.starts == a.starts
    ensures Spendable(d, "a") && Spendable(d, "b") && IsIn(w, d, Approved) && "j" in d.operationJobs
  {
    var b, c;
    states, events, b := PreviewEnds(w, operation, was, did, Approved, a, Approved, None);
    states, events, c := TimePasses(w, operation, states, events, Approved, b, 601);
    states, events, b := ApprovalRound(w, operation, states, events, Approved, c, "b", "carol");
    assert Spendable(b, ["b"][0]);
    states, events, d, q := CheckRound(w, operation, states, events, Approved, b, "b");
  }

  lemma TimePasses(w: World, operation: string, was: seq<Db>, did: seq<Event>, s: State, a: Db, now: int)
      returns (states: seq<Db>, events: seq<Event>, d: Db)
    requires Leads(w, operation, was, did, s, a) && a.now <= now
    ensures Leads(w, operation, states, events, s, d) && d == a.(now := now)
  {
    d := a.(now := now);
    states, events := LeadsOn(w, operation, was, did, s, a, Tick(now), d);
  }

  /** The request would start the job "j". */
  predicate StartsJob(p: Prepared, approval: string) {
    p.kind == Operation && p.jobId == "j" && p.approvals == [approval]
  }

  lemma BothAreWritten(w: World, operation: string, was: seq<Db>, did: seq<Event>, s: State, a: Db, p: Prepared, q: Prepared)
      returns (states: seq<Db>, events: seq<Event>)
    requires Leads(w, operation, was, did, s, a) && ReadFor(a, p, ["a"]) && ReadFor(a, q, ["b"]) && Spendable(a, "a") && Spendable(a, "b")
    requires "c" in a.changesets && "j" in a.operationJobs && a.changesets["c"].approvalRequired && a.starts == []
    ensures StartsTwice(w, operation, states, events, "c", s) && |states[|events|].starts| == 2
    ensures StartsJob(states[|events|].starts[0].request, "a") && StartsJob(states[|events|].starts[1].request, "b")
  {
    var b, c;
    states, events, b := WriteStep(w, operation, was, did, s, a, p, "a");
    states, events, c := WriteStep(w, operation, states, events, s, b, q, "b");
    assert c.starts == [Start(p, a.now, a.generation), Start(q, b.now, b.generation)];
    TwoStarts(c.starts[0], c.starts[1], "c");
  }

  lemma JobRounds(w: World, operation: string, was: seq<Db>, did: seq<Event>, planned: Db, preview: Preview)
      returns (states: seq<Db>, events: seq<Event>)
    requires w.hash(Obj([])) != "" && (forall r :: w.mac(r) != "") && Leads(w, operation, was, did, Approved, planned) && JustPlanned(w, planned, Some(preview))
    ensures StartsTwice(w, operation, states, events, "c", Approved) && |states[|events|].starts| == 2
    ensures StartsJob(states[|events|].starts[0].request, "a") && StartsJob(states[|events|].starts[1].request, "b")
  {
    var a, b, p, q;
    states, events, a, p := CheckedFirst(w, operation, was, did, planned, preview);
    states, events, b, q := CheckedAgain(w, operation, states, events, a);
    states, events := BothAreWritten(w, operation, states, events, Approved, b, p, q);
  }

  lemma TwoStarts(s: Start, t: Start, id: string)
    requires s.request.changesetId == t.request.changesetId == id
    ensures StartsOf([s, t], id) == 2
  {
    Policy.StartCounted([], s, id);
    Policy.StartCounted([s], t, id);
    assert [s, t] == [s] + [t] && [s] == [] + [s];
  }

  /**
    An operation job starts twice, each time with an approval of its own: it is approved and checked; a live preview ends;
    the approval runs out; it is approved and checked again; and both requests are written.
   */
  lemma OneJobStartsTwice(w: World, operation: string) returns (states: seq<Db>, events: seq<Event>)
    requires w.hash(Obj([])) != "" && (forall r :: w.mac(r) != "") && Risk.Classify(operation) == Risk.High
    ensures StartsTwice(w, operation, states, events, "c", Approved) && |states[|events|].starts| == 2
    ensures StartsJob(states[|events|].starts[0].request, "a") && StartsJob(states[|events|].starts[1].request, "b")
  {
    var preview := Preview("operations-center-deterministic-planner", Null);
    var a;
    states, events, a := FirstStep(w, operation, Some(preview), Approved);
    states, events := JobRounds(w, operation, states, events, a, preview);
  }

  // ---- Exactly which ends of a live preview -----------------------------------------------------------------------

  lemma EndsAreInTime(w: World, states: seq<Db>, events: seq<Event>, id: string, s: State)
    requires IsRun(w, states, events) && PreviewsEndIn(states, events, id, s) && (BeforeApproval(s) || RunOut(s))
    ensures PreviewsEndInTime(states, events, |events|, id)
  {
    forall n | 0 <= n < |events| && EndsPreview(events[n], id)
      ensures EndsInTime(states[n], id)
    {
      assert EndsBeforeOrIn(states[n], id, s);
      if RunOut(states[n].changesets[id].state) {
        RunOutIsOver(w, states, events, n, id);
      }
    }
  }

  lemma EarlyEndsStartOnce(w: World, operation: string, states: seq<Db>, events: seq<Event>, id: string, s: State)
    requires BeforeApproval(s) || RunOut(s)
    ensures !StartsTwice(w, operation, states, events, id, s)
  {
    if StartsTwice(w, operation, states, events, id, s) {
      EndsAreInTime(w, states, events, id, s);
      StartsAtMostOnce(w, states, events, |events|, id);
    }
  }

  /**
    A live preview that ends in state `s` can bring a second start of a ChangeSet of a HIGH operation exactly if `s` is not
    one before approval and neither EXPIRED nor STALE_POLICY.
   */
  lemma SecondStartAfterPreviewIff(w: World, operation: string, s: State)
    requires w.hash(Obj([])) != "" && (forall r :: w.mac(r) != "") && Risk.Classify(operation) == Risk.High
    ensures (exists states, events, id :: StartsTwice(w, operation, states, events, id, s)) <==> !BeforeApproval(s) && !RunOut(s)
  {
    if s == Approved {
      var states, events := OneJobStartsTwice(w, operation);
    } else if !BeforeApproval(s) && !RunOut(s) {
      var states, events := StartsTwiceDirectly(w, operation, s);
    } else {
      forall states, events, id
        ensures !StartsTwice(w, operation, states, events, id, s)
      {
        EarlyEndsStartOnce(w, operation, states, events, id, s);
      }
    }
  }
}
