/**
  Runs that show what the split of a job start allows, step by step: a database in which one ChangeSet is planned,
  approved and checked, and a policy change that misses an expired ChangeSet's approval. They exist for every hash and
  signature.
 */
module Witnesses {
  import opened Json
  import opened Wrappers
  import opened Tables
  import opened Handlers
  import opened Ledger
  import opened Runs
  import opened Safety
  import PlanHash
  import Risk

  // ---- Any job: authorized, checked ------------------------------------------------------------------

  function RequestFor(d: Db, jobId: string, ids: seq<string>, t: Ticket): Prepared
    requires jobId in d.operationJobs && d.operationJobs[jobId].changesetId in d.changesets
    requires d.changesets[d.operationJobs[jobId].changesetId].targetId in d.targets
  {
    var id := d.operationJobs[jobId].changesetId;
    Prepared(Operation, jobId, id, ids, t, d.targets[d.changesets[id].targetId], d.now, d.generation)
  }

  /** The job's ticket is fresh and describes its ChangeSet as it is now. */
  predicate FreshTicket(w: World, d: Db, jobId: string, ids: seq<string>, t: Ticket)
    requires jobId in d.operationJobs
  {
    var j := d.operationJobs[jobId];
    && j.changesetId in d.changesets && j.planId in d.operationPlans && j.state == Ready
    && j.authorization == Some(Authorization(w.ticketHash(t), t.issuedAt, t.expiresAt, ids))
    && t == TicketFor(d, j.changesetId, OperationPreconditions(d, jobId, j), t.expiresAt - d.now).(issuedAt := t.issuedAt)
    && t.issuedAt <= d.now <= t.expiresAt
  }

  lemma TicketIsOk(w: World, d: Db, jobId: string, ids: seq<string>, t: Ticket)
    requires jobId in d.operationJobs && FreshTicket(w, d, jobId, ids, t) && Bound(w, d, d.operationJobs[jobId])
    ensures OperationTicketOk(w, d, jobId, d.operationJobs[jobId], t, w.sign(t), true)
  {
    EquivalentReflexive(t.plan);
    EquivalentReflexive(t.preconditions.typedHash);
  }

  lemma RequestIsOk(w: World, d: Db, jobId: string, ids: seq<string>, t: Ticket)
    requires jobId in d.operationJobs && FreshTicket(w, d, jobId, ids, t) && OperationAuthorized(w, d, d.operationJobs[jobId], ids)
    ensures d.changesets[d.operationJobs[jobId].changesetId].targetId in d.targets
    ensures OperationReadOk(w, d, RequestFor(d, jobId, ids, t), w.sign(t))
  {
    TicketIsOk(w, d, jobId, ids, t);
  }

  lemma OkReads(w: World, d: Db, p: Prepared, signature: string)
    requires OperationReadOk(w, d, p, signature)
    ensures Next(w, d, Read(p, signature), d.(inFlight := d.inFlight + {p}))
  {
  }

  /** A job that is authorized and whose ticket is presented passes its checks. */
  lemma TicketReads(w: World, d: Db, jobId: string, ids: seq<string>, t: Ticket)
    requires jobId in d.operationJobs && FreshTicket(w, d, jobId, ids, t) && OperationAuthorized(w, d, d.operationJobs[jobId], ids)
    ensures d.changesets[d.operationJobs[jobId].changesetId].targetId in d.targets
    ensures var p := RequestFor(d, jobId, ids, t); Next(w, d, Read(p, w.sign(t)), d.(inFlight := d.inFlight + {p}))
  {
    RequestIsOk(w, d, jobId, ids, t);
    OkReads(w, d, RequestFor(d, jobId, ids, t), w.sign(t));
  }

  /** Authorizing a job leaves it authorized, under the ticket just issued. */
  lemma AuthorizeIssues(w: World, d: Db, jobId: string, ids: seq<string>)
    requires CanAuthorize(w, d, jobId, ids) && forall n | 0 <= n < |ids| :: ids[n] in d.approvals
    requires d.operationJobs[jobId].changesetId in d.changesets && d.operationJobs[jobId].planId in d.operationPlans
    ensures var t := OperationTicket(d, jobId, ids); var b := WithTicket(w, d, jobId, t, ids);
            && Next(w, d, Authorize(jobId, ids), b) && FreshTicket(w, b, jobId, ids, t) && d.now < t.expiresAt <= d.now + TICKET_SECONDS
            && OperationAuthorized(w, b, b.operationJobs[jobId], ids)
  {
    var t := OperationTicket(d, jobId, ids);
    var b := WithTicket(w, d, jobId, t, ids);
    SameChoice(w, d, b, d.operationJobs[jobId].changesetId, ids);
    AuthorizedAlike(w, d, b, jobId, ids);
  }

  lemma SameChoice(w: World, a: Db, b: Db, id: string, ids: seq<string>)
    requires id in a.changesets && QuorumIs(w, a, id, ids)
    requires b.changesets == a.changesets && b.approvals == a.approvals && b.now == a.now
    ensures QuorumIs(w, b, id, ids)
  {
    if a.changesets[id].approvalRequired {
      assert forall x :: Valid(w, b, id, x) <==> Valid(w, a, id, x);
      assert forall x, y :: Earlier(b, x, y) <==> Earlier(a, x, y);
      assert forall x :: ApproverOf(b, x) == ApproverOf(a, x);
      forall x | Valid(w, b, id, x)
        ensures Outranked(b, ids, x)
      {
        assert Outranked(a, ids, x);
      }
    }
  }

  lemma AuthorizedAlike(w: World, a: Db, b: Db, jobId: string, ids: seq<string>)
    requires jobId in a.operationJobs && OperationAuthorized(w, a, a.operationJobs[jobId], ids)
    requires b == a.(operationJobs := b.operationJobs) && jobId in b.operationJobs
    requires b.operationJobs[jobId] == a.operationJobs[jobId].(state := Ready, authorization := b.operationJobs[jobId].authorization,
                                                               issued := b.operationJobs[jobId].issued)
    requires QuorumIs(w, b, a.operationJobs[jobId].changesetId, ids)
    ensures OperationAuthorized(w, b, b.operationJobs[jobId], ids)
  {
  }

  // ---- A target, a plan and a job ----------------------------------------------------------------------

  const TARGET := Obj([Field("status", Str("configured"))])

  function TypedFor(w: World): Json {
    Obj([Field(PlanHash.PLAN_HASH, Str(w.hash(Obj([]))))])
  }

  function PlanFor(w: World): Json {
    Obj([Field("target_snapshot", TARGET), Field("parameters", Obj([Field("typed_plan", TypedFor(w))]))])
  }

  lemma GetNone(fields: seq<Field>, key: string)
    requires forall f | f in fields :: f.key != key
    ensures Get(Obj(fields), key) == Null
  {
  }

  lemma PlanReads(w: World)
    ensures Get(TARGET, "status") == Str("configured") && Get(PlanFor(w), "target_snapshot") == TARGET
    ensures TypedPlan(PlanFor(w)) == TypedFor(w)
  {
    OnlyWithKey(TARGET.fields, 0);
    var fields := PlanFor(w).fields;
    assert |fields[0].key| != |fields[1].key|;
    OnlyWithKey(fields, 0);
    OnlyWithKey(fields, 1);
    OnlyWithKey(fields[1].value.fields, 0);
  }

  lemma TypedReads(w: World)
    requires w.hash(Obj([])) != ""
    ensures TypedPlanIntact(w, TypedFor(w)) && Get(TypedFor(w), "targets") == Null
  {
    var fields := TypedFor(w).fields;
    OnlyWithKey(fields, 0);
    assert fields[1..] == [] && PlanHash.Without(fields, PlanHash.PLAN_HASH) == [];
    assert |fields[0].key| != |"targets"|;
    GetNone(fields, "targets");
  }

  // ---- One ChangeSet -------------------------------------------------------------------------------------

  predicate RowIs(w: World, d: Db, c: Changeset, s: State) {
    && c.targetId == "t" && c.plan == PlanFor(w) && c.planHash == w.hash(c.plan) && c.generation == d.generation
    && c.risk == Risk.High && c.approvalRequired && c.requestedBy == "alice" && c.expiresAt == 3600 && c.state == s
  }

  /** The ChangeSet is of the current policy and in this state, and its target is as planned. */
  predicate IsIn(w: World, d: Db, s: State) {
    "c" in d.changesets && "t" in d.targets && d.targets["t"] == TARGET && d.now <= 3600 && RowIs(w, d, d.changesets["c"], s)
  }

  predicate NoneCounts(d: Db) {
    forall x | x in d.approvals :: d.approvals[x].status != Granted || d.approvals[x].expiresAt < d.now
  }

  /** It is approved, and these approvals would be selected for a start. */
  ghost predicate Startable(w: World, d: Db, ids: seq<string>) {
    IsIn(w, d, Approved) && QuorumIs(w, d, "c", ids) && forall n | 0 <= n < |ids| :: Spendable(d, ids[n])
  }

  /** What one approval adds when no other one counts. */
  predicate Approves(w: World, d: Db, i: string, ttl: int, e: Db) {
    && e == d.(changesets := e.changesets, approvals := e.approvals)
    && e.approvals.Keys == d.approvals.Keys + {i} && e.approvals[i].expiresAt == Min(d.now + ttl, 3600) && e.approvals[i].changesetId == "c"
    && (forall x | x in d.approvals && x != i :: e.approvals[x] == d.approvals[x])
    && "c" in d.changesets && e.changesets == d.changesets["c" := d.changesets["c"].(state := Approved)]
  }

  /** One approval makes the ChangeSet startable. */
  lemma OneApproval(w: World, d: Db, i: string, approver: string, ttl: nat) returns (e: Db)
    requires IsIn(w, d, AwaitingApproval) && NoneCounts(d) && i !in d.approvals && approver != "alice" && forall r :: w.mac(r) != ""
    ensures Next(w, d, Approve("c", i, approver, d.changesets["c"].planHash, ttl, "n"), e)
    ensures Approves(w, d, i, ttl, e) && Startable(w, e, [i])
  {
    var x := NewApproval(w, d, "c", i, approver, ttl, "n");
    e := WithApproval(d, "c", i, x);
    assert Approvers(d, "c") == {};
    FirstApproval(d, "c", i, x);
    OnlyChoice(w, e, i);
  }

  lemma FirstApproval(d: Db, id: string, i: string, x: Approval)
    requires id in d.changesets && Required(d.changesets[id]) == 1
    requires x.changesetId == id && x.planHash == d.changesets[id].planHash && x.status == Granted && d.now <= x.expiresAt
    ensures WithApproval(d, id, i, x) == SetState(d, id, Approved).(approvals := d.approvals[i := x])
  {
    var added := d.(approvals := d.approvals[i := x]);
    assert Counts(added, id, i);
    assert x.approver in Approvers(added, id);
  }

  lemma OnlyChoice(w: World, d: Db, i: string)
    requires "c" in d.changesets && Valid(w, d, "c", i) && d.changesets["c"].approvalRequired && Required(d.changesets["c"]) == 1
    requires forall x | x in d.approvals && x != i :: !Valid(w, d, "c", x)
    ensures QuorumIs(w, d, "c", [i])
  {
    forall x | Valid(w, d, "c", x)
      ensures Outranked(d, [i], x)
    {
      assert x == i && [i][0] == x;
    }
  }

  // ---- Its job -------------------------------------------------------------------------------------------

  function JobFor(w: World, d: Db): OperationJob
    requires "c" in d.changesets
  {
    OperationJob("p", "c", "kubernetes-broker", d.changesets["c"].planHash, Get(TypedFor(w), PlanHash.PLAN_HASH), Waiting, None, None)
  }

  /** The ChangeSet's job has not left. */
  predicate JobCanStart(w: World, d: Db) {
    && "c" in d.changesets && "p" in d.operationPlans && "j" in d.operationJobs && d.operationPlans["p"] == OperationPlan("c", TypedFor(w))
    && var j := d.operationJobs["j"];
       && (j.state == Waiting || j.state == Ready)
       && j == JobFor(w, d).(state := j.state, authorization := j.authorization, issued := j.issued)
  }

  lemma JobIsAdded(w: World, d: Db, ids: seq<string>) returns (b: Db)
    requires Startable(w, d, ids) && d.operationPlans == map[] && d.operationJobs == map[]
    ensures Next(w, d, AddJob("p", OperationPlan("c", TypedFor(w)), "j", JobFor(w, d)), b)
    ensures b == d.(operationPlans := b.operationPlans, operationJobs := b.operationJobs) && JobCanStart(w, b) && Startable(w, b, ids)
  {
    b := WithOperationJob(d, "p", OperationPlan("c", TypedFor(w)), "j", JobFor(w, d));
    SameChoice(w, d, b, "c", ids);
  }

  lemma JobIsAuthorized(w: World, d: Db, ids: seq<string>)
    requires Startable(w, d, ids) && JobCanStart(w, d) && w.hash(Obj([])) != ""
    ensures CanAuthorize(w, d, "j", ids)
  {
    PlanReads(w);
    TypedReads(w);
    EquivalentReflexive(TARGET);
    EquivalentReflexive(TypedFor(w));
  }

  /** A request in flight for the job. */
  predicate ReadFor(d: Db, p: Prepared, ids: seq<string>) {
    p in d.inFlight && p.kind == Operation && p.jobId == "j" && p.changesetId == "c" && p.approvals == ids
  }

  /** The job can be authorized and checked. */
  lemma JobIsChecked(w: World, d: Db, ids: seq<string>) returns (b: Db, c: Db, p: Prepared)
    requires Startable(w, d, ids) && JobCanStart(w, d) && w.hash(Obj([])) != ""
    ensures Next(w, d, Authorize("j", ids), b) && Next(w, b, Read(p, w.sign(p.ticket)), c)
    ensures c == d.(operationJobs := c.operationJobs, inFlight := d.inFlight + {p}) && JobCanStart(w, c) && ReadFor(c, p, ids)
    ensures p.ticket.expiresAt <= d.now + TICKET_SECONDS && p.readAt == d.now
  {
    JobIsAuthorized(w, d, ids);
    AuthorizeIssues(w, d, "j", ids);
    var t := OperationTicket(d, "j", ids);
    b := WithTicket(w, d, "j", t, ids);
    TicketReads(w, b, "j", ids, t);
    p := RequestFor(b, "j", ids, t);
    c := b.(inFlight := b.inFlight + {p});
  }

  // ---- Runs, step by step --------------------------------------------------------------------------------

  function Empty(): Db {
    Db(0, 1, map[], map[], map[], map[], map[], map["t" := TARGET], [], {})
  }

  lemma RunStarts(w: World)
    ensures IsRun(w, [Empty()], [])
  {
  }

  lemma RunExtends(w: World, s: seq<Db>, t: seq<Event>, e: Event, b: Db) returns (states: seq<Db>, events: seq<Event>)
    requires IsRun(w, s, t) && Next(w, s[|s| - 1], e, b)
    ensures states == s + [b] && events == t + [e] && IsRun(w, states, events)
  {
    states, events := s + [b], t + [e];
    forall k | 0 <= k < |events|
      ensures StepAt(w, states, events, k)
    {
      if k < |t| {
        assert StepAt(w, s, t, k);
        assert states[k] == s[k] && states[k + 1] == s[k + 1] && events[k] == t[k];
      }
    }
  }

  /** The ChangeSet of this operation, with an hour to live. */
  function RowFor(w: World, operation: string, preview: Option<Preview>): Changeset {
    NewChangeset(w, Empty(), operation, "t", "alice", PlanFor(w), 3600, preview)
  }

  lemma IsPlanned(w: World, operation: string, preview: Option<Preview>) returns (d: Db)
    requires Risk.Classify(operation) == Risk.High
    ensures Next(w, Empty(), Plan("c", RowFor(w, operation, preview)), d) && d == WithChangeset(Empty(), "c", RowFor(w, operation, preview))
    ensures IsIn(w, d, if preview.Some? then Previewed else Planned)
  {
    PlanReads(w);
    EquivalentReflexive(TARGET);
    d := WithChangeset(Empty(), "c", RowFor(w, operation, preview));
  }

  lemma ApprovalIsRequested(w: World, d: Db) returns (e: Db)
    requires IsIn(w, d, Previewed)
    ensures Next(w, d, RequestApproval("c"), e) && e == SetState(d, "c", AwaitingApproval) && IsIn(w, e, AwaitingApproval)
  {
    e := SetState(d, "c", AwaitingApproval);
  }

  // ---- A policy change that misses an approval ----------------------------------------------------------------

  /** A ChangeSet that expires before the policy changes keeps its approvals. */
  lemma BumpMissesExpired(d: Db, id: string, x: string)
    requires id in d.changesets && PastExpiry(d, d.changesets[id]) && Spendable(d, x) && d.approvals[x].changesetId == id
    ensures var f := Bumped(Touch(d, id));
            && Spendable(f, x) && id in f.changesets && f.changesets[id].generation == d.changesets[id].generation
            && f.generation == d.generation + 1 && f.inFlight == d.inFlight && f.operationJobs == d.operationJobs
  {
    var e := Touch(d, id);
    assert e.changesets[id].state == Expired;
    assert id !in StaleIds(Staled(e.changesets, e.generation + 1));
  }

  /** A request in flight for an operation job, with this one approval. */
  predicate Waits(d: Db, p: Prepared, x: string) {
    && p in d.inFlight && p.kind == Operation && p.jobId in d.operationJobs && p.approvals == [x] && p.changesetId in d.changesets
    && Spendable(d, x) && d.approvals[x].changesetId == p.changesetId
  }

  /** It is for the current policy, and its ChangeSet is approved and expires at 3600. */
  predicate WaitsToExpire(d: Db, p: Prepared) {
    && Waits(d, p, "a") && p.changesetId == "c" && d.now == 0 && p.ticket.expiresAt <= TICKET_SECONDS
    && d.changesets["c"].state == Approved && d.changesets["c"].expiresAt == 3600 && d.changesets["c"].generation == d.generation
  }

  lemma WaitingIsWritten(w: World, d: Db, p: Prepared, x: string)
    requires Waits(d, p, x)
    ensures Next(w, d, Write(p), Written(d, p)) && IsSpent(Written(d, p), x)
    ensures p.changesetId in Written(d, p).changesets && Written(d, p).changesets[p.changesetId].generation == d.changesets[p.changesetId].generation
    ensures Written(d, p).generation == d.generation
  {
    WrittenFields(d, p);
    assert p.approvals[0] in p.approvals;
  }

  /** A run that ends with a request in flight for a ChangeSet that was approved and will expire. */
  lemma CheckedRun(w: World, operation: string) returns (states: seq<Db>, events: seq<Event>)
    requires w.hash(Obj([])) != "" && (forall r :: w.mac(r) != "") && Risk.Classify(operation) == Risk.High
    ensures IsRun(w, states, events) && |states| == 7 && events[5].Read?
    ensures WaitsToExpire(states[6], events[5].request)
  {
    var preview := Some(Preview("planner", Null));
    var d1 := IsPlanned(w, operation, preview);
    var d2 := ApprovalIsRequested(w, d1);
    var d3 := OneApproval(w, d2, "a", "bob", 600);
    var d4 := JobIsAdded(w, d3, ["a"]);
    var d5, d6, p := JobIsChecked(w, d4, ["a"]);
    CheckedWaits(w, d4, d6, p);
    RunStarts(w);
    states, events := [Empty()], [];
    states, events := RunExtends(w, states, events, Plan("c", RowFor(w, operation, preview)), d1);
    states, events := RunExtends(w, states, events, RequestApproval("c"), d2);
    states, events := RunExtends(w, states, events, Approve("c", "a", "bob", d2.changesets["c"].planHash, 600, "n"), d3);
    states, events := RunExtends(w, states, events, AddJob("p", OperationPlan("c", TypedFor(w)), "j", JobFor(w, d3)), d4);
    states, events := RunExtends(w, states, events, Authorize("j", ["a"]), d5);
    states, events := RunExtends(w, states, events, Read(p, w.sign(p.ticket)), d6);
  }

  lemma CheckedWaits(w: World, d: Db, c: Db, p: Prepared)
    requires Startable(w, d, ["a"]) && d.now == 0 && "a" in d.approvals && d.approvals["a"].changesetId == "c"
    requires c == d.(operationJobs := c.operationJobs, inFlight := d.inFlight + {p}) && JobCanStart(w, c) && ReadFor(c, p, ["a"])
    requires p.ticket.expiresAt <= TICKET_SECONDS
    ensures WaitsToExpire(c, p)
  {
    assert Spendable(d, ["a"][0]);
  }

  /** Its ChangeSet expires. */
  lemma WaitingExpires(w: World, c: Db, p: Prepared) returns (d: Db, e: Db)
    requires WaitsToExpire(c, p)
    ensures Next(w, c, Tick(3601), d) && Next(w, d, Expire("c"), e)
    ensures d == c.(now := 3601) && "c" in d.changesets && PastExpiry(d, d.changesets["c"]) && e == Touch(d, "c")
  {
    d := c.(now := 3601);
    e := Touch(d, "c");
  }

  /** The policy changes, and the request still waits. */
  lemma WaitsAfterBump(w: World, d: Db, p: Prepared) returns (f: Db)
    requires Waits(d, p, "a") && p.changesetId == "c" && PastExpiry(d, d.changesets["c"]) && d.changesets["c"].generation == d.generation
    ensures Next(w, Touch(d, "c"), Bump, f) && f.now == d.now && Waits(f, p, "a") && f.changesets["c"].generation < f.generation
  {
    f := Bumped(Touch(d, "c"));
    BumpMissesExpired(d, "c", "a");
  }

  lemma WrittenAfterBump(w: World, d: Db, p: Prepared) returns (f: Db, g: Db)
    requires Waits(d, p, "a") && p.changesetId == "c" && PastExpiry(d, d.changesets["c"]) && d.changesets["c"].generation == d.generation
    ensures Next(w, Touch(d, "c"), Bump, f) && Next(w, f, Write(p), g) && f.now == d.now
    ensures !IsSpent(f, "a") && IsSpent(g, "a") && "c" in g.changesets && g.changesets["c"].generation < g.generation
  {
    f := WaitsAfterBump(w, d, p);
    WaitingIsWritten(w, f, p, "a");
    g := Written(f, p);
  }

  /**
    A start is checked; its ChangeSet expires; the policy changes; and the write still spends the approval of the old
    policy, for a ChangeSet that is over and long after the ticket's 120 seconds.
   */
  lemma OldApprovalIsSpent(w: World, operation: string) returns (states: seq<Db>, events: seq<Event>)
    requires w.hash(Obj([])) != "" && (forall r :: w.mac(r) != "") && Risk.Classify(operation) == Risk.High
    ensures IsRun(w, states, events) && |states| == 11 && events[5].Read? && events[8] == Bump && events[9] == Write(events[5].request)
    ensures Waits(states[6], events[5].request, "a") && !IsSpent(states[9], "a") && IsSpent(states[10], "a")
    ensures "c" in states[10].changesets && states[10].changesets["c"].generation < states[10].generation
    ensures events[5].request.ticket.expiresAt < states[9].now
  {
    states, events := CheckedRun(w, operation);
    states, events := SpentRun(w, states, events);
  }

  lemma SpentRun(w: World, s: seq<Db>, t: seq<Event>) returns (states: seq<Db>, events: seq<Event>)
    requires IsRun(w, s, t) && |s| == 7 && t[5].Read? && WaitsToExpire(s[6], t[5].request)
    ensures IsRun(w, states, events) && |states| == 11 && events[5].Read? && events[8] == Bump && events[9] == Write(events[5].request)
    ensures Waits(states[6], events[5].request, "a") && !IsSpent(states[9], "a") && IsSpent(states[10], "a")
    ensures "c" in states[10].changesets && states[10].changesets["c"].generation < states[10].generation
    ensures events[5].request.ticket.expiresAt < states[9].now
  {
    var p := t[5].request;
    var d, e := WaitingExpires(w, s[6], p);
    WaitsLater(s[6], p);
    var f, g := WrittenAfterBump(w, d, p);
    states, events := BumpedRun(w, s, t, p, d, e, f, g);
  }

  lemma WaitsLater(c: Db, p: Prepared)
    requires WaitsToExpire(c, p)
    ensures Waits(c.(now := 3601), p, "a")
  {
  }

  lemma BumpedRun(w: World, s: seq<Db>, t: seq<Event>, p: Prepared, d: Db, e: Db, f: Db, g: Db) returns (states: seq<Db>, events: seq<Event>)
    requires IsRun(w, s, t) && Next(w, s[|s| - 1], Tick(3601), d) && Next(w, d, Expire("c"), e) && Next(w, e, Bump, f) && Next(w, f, Write(p), g)
    ensures states == s + [d, e, f, g] && events == t + [Tick(3601), Expire("c"), Bump, Write(p)] && IsRun(w, states, events)
  {
    states, events := RunExtends(w, s, t, Tick(3601), d);
    states, events := RunExtends(w, states, events, Expire("c"), e);
    states, events := RunExtends(w, states, events, Bump, f);
    states, events := RunExtends(w, states, events, Write(p), g);
  }
}
