/**
  What each request handler commits, as a function of the database (main.py:878-887, 2204-2245, 2357-2623,
  3807-3874, 4564-4790; db.py:661-675). A handler that raises commits nothing, apart from the lazy expiry of
  the ChangeSet it looked up, which is `Touch`.
 */
module Handlers {
  import opened Json
  import opened Ordering
  import opened Wrappers
  import opened Tables
  import Risk

  function SetState(d: Db, id: string, s: State): Db
    requires id in d.changesets
  {
    d.(changesets := d.changesets[id := d.changesets[id].(state := s)])
  }

  predicate PastExpiry(d: Db, c: Changeset) {
    c.expiresAt != 0 && c.expiresAt < d.now && !Terminal(c.state)
  }

  /** Looking a ChangeSet up expires it. */
  function Touch(d: Db, id: string): Db {
    if id in d.changesets && PastExpiry(d, d.changesets[id]) then SetState(d, id, Expired) else d
  }

  // ---- Planning ---------------------------------------------------------------------------------

  /** The plan document of a new ChangeSet. */
  function PlanDocument(d: Db, operation: string, adapter: string, targetId: string, sourceRevision: Json, parameters: Json): Json
    requires targetId in d.targets
  {
    Obj([Field("schema_version", Num(2)), Field("operation", Str(operation)), Field("adapter", Str(adapter)),
         Field("target_id", Str(targetId)), Field("source_revision", sourceRevision), Field("parameters", parameters),
         Field("policy_generation", Num(d.generation)), Field("target_snapshot", d.targets[targetId])])
  }

  predicate CanPlan(d: Db, id: string, targetId: string) {
    id !in d.changesets && targetId in d.targets && Get(d.targets[targetId], "status") == Str("configured")
  }

  function NewChangeset(w: World, d: Db, operation: string, targetId: string, requestedBy: string, plan: Json, ttl: int, preview: Option<Preview>): Changeset {
    var risk := Risk.Classify(operation);
    Changeset(operation, targetId, requestedBy, risk, Risk.ApprovalRequired(risk), w.hash(plan), d.generation, d.now + ttl,
              plan, plan, preview, if preview.Some? then Previewed else Planned)
  }

  function WithChangeset(d: Db, id: string, c: Changeset): Db {
    d.(changesets := d.changesets[id := c])
  }

  function WithOperationJob(d: Db, planId: string, p: OperationPlan, jobId: string, j: OperationJob): Db {
    d.(operationPlans := d.operationPlans[planId := p], operationJobs := d.operationJobs[jobId := j])
  }

  // ---- Preview and approval -----------------------------------------------------------------------

  predicate CanPreview(d: Db, id: string) {
    && id in d.changesets
    && var c := d.changesets[id];
       CurrentGeneration(d, c) && (c.state == Planned || c.state == Previewed)
  }

  function Shown(d: Db, id: string, preview: Preview, s: State): Db
    requires id in d.changesets
  {
    d.(changesets := d.changesets[id := d.changesets[id].(preview := Some(preview), state := s)])
  }

  predicate CanRequestApproval(d: Db, id: string) {
    && id in d.changesets
    && var c := d.changesets[id];
       CurrentGeneration(d, c) && c.approvalRequired && c.state == Previewed
  }

  /** A live approval of the current plan, as the approval endpoint counts it. */
  predicate Counts(d: Db, id: string, i: string)
    requires id in d.changesets
  {
    && i in d.approvals
    && var a := d.approvals[i];
       a.changesetId == id && a.planHash == d.changesets[id].planHash && a.status == Granted && d.now <= a.expiresAt
  }

  function Approvers(d: Db, id: string): set<string>
    requires id in d.changesets
  {
    set i | i in d.approvals && Counts(d, id, i) :: d.approvals[i].approver
  }

  predicate CanApprove(d: Db, id: string, approvalId: string, approver: string, planHash: string) {
    && id in d.changesets && approvalId !in d.approvals
    && var c := d.changesets[id];
       && CurrentGeneration(d, c) && c.state == AwaitingApproval && planHash == c.planHash
       && !(Risk.ApprovalRequired(c.risk) && approver == c.requestedBy)
       && approver !in Approvers(d, id)
  }

  function NewApproval(w: World, d: Db, id: string, approvalId: string, approver: string, ttl: int, nonce: string): Approval
    requires id in d.changesets
  {
    var c := d.changesets[id];
    var expiresAt := if c.expiresAt == 0 then d.now + ttl else Min(d.now + ttl, c.expiresAt);
    var unsigned := Approval(id, c.planHash, approver, d.now, expiresAt, c.generation, nonce, "", Granted, None);
    unsigned.(mac := MacOf(w, approvalId, unsigned))
  }

  function WithApproval(d: Db, id: string, approvalId: string, a: Approval): Db
    requires id in d.changesets
  {
    var added := d.(approvals := d.approvals[approvalId := a]);
    SetState(added, id, if |Approvers(added, id)| >= Required(d.changesets[id]) then Approved else AwaitingApproval)
  }

  /** `UPDATE approvals SET status=... WHERE changeset_id IN ... AND status='APPROVED'`. */
  function Withdraw(approvals: map<string, Approval>, changesets: set<string>, reason: State): map<string, Approval> {
    map i | i in approvals ::
      if approvals[i].changesetId in changesets && approvals[i].status == Granted then approvals[i].(status := Withdrawn(reason)) else approvals[i]
  }

  predicate CanReject(d: Db, id: string) {
    id in d.changesets && CurrentGeneration(d, d.changesets[id]) && !Terminal(d.changesets[id].state)
  }

  predicate CanCancel(d: Db, id: string) {
    id in d.changesets && !Terminal(d.changesets[id].state)
  }

  function Ended(d: Db, id: string, s: State): Db
    requires id in d.changesets
  {
    SetState(d, id, s).(approvals := Withdraw(d.approvals, {id}, s))
  }

  /** The states a policy change makes stale. */
  predicate Undecided(s: State) {
    s.Planned? || s.Previewed? || s.AwaitingApproval? || s.Approved?
  }

  function Staled(changesets: map<string, Changeset>, generation: int): map<string, Changeset> {
    map id | id in changesets ::
      if changesets[id].generation != generation && Undecided(changesets[id].state) then changesets[id].(state := StalePolicy) else changesets[id]
  }

  function StaleIds(changesets: map<string, Changeset>): set<string> {
    set id | id in changesets && changesets[id].state == StalePolicy
  }

  function Bumped(d: Db): Db {
    var changesets := Staled(d.changesets, d.generation + 1);
    d.(generation := d.generation + 1, changesets := changesets, approvals := Withdraw(d.approvals, StaleIds(changesets), StalePolicy))
  }

  // ---- Starts -------------------------------------------------------------------------------------

  /** `WHERE id IN (...) AND status='APPROVED' AND consumed_at IS NULL`. */
  predicate Spendable(d: Db, i: string) {
    i in d.approvals && d.approvals[i].status == Granted && d.approvals[i].consumedAt == None
  }

  function Spend(d: Db, ids: seq<string>): map<string, Approval> {
    map i | i in d.approvals ::
      if i in ids && Spendable(d, i) then d.approvals[i].(status := Consumed, consumedAt := Some(d.now)) else d.approvals[i]
  }

  /** The row count matches: every approval of the request is still unspent. */
  predicate AllSpendable(d: Db, ids: seq<string>) {
    forall n | 0 <= n < |ids| :: Spendable(d, ids[n])
  }

  /** The approvals of the request that its update still finds unspent. */
  function StillSpendable(d: Db, ids: seq<string>): set<string> {
    set i | i in ids && Spendable(d, i)
  }

  lemma AllStillSpendable(d: Db, ids: seq<string>)
    ensures |StillSpendable(d, ids)| == |Elems(ids)| <==> AllSpendable(d, ids)
  {
    var some := StillSpendable(d, ids);
    assert some <= Elems(ids);
    SameSizeSubset(some, Elems(ids));
    if AllSpendable(d, ids) {
      forall i | i in Elems(ids)
        ensures i in some
      {
        var n :| 0 <= n < |ids| && ids[n] == i;
      }
    }
    if Elems(ids) - some == {} {
      forall n | 0 <= n < |ids|
        ensures Spendable(d, ids[n])
      {
        assert ids[n] in Elems(ids);
        assert ids[n] !in Elems(ids) - some;
      }
    }
  }

  /** The common writes of a start: approvals spent, ChangeSet executing, audit row added. */
  function Begun(d: Db, p: Prepared): Db
    requires p.changesetId in d.changesets
  {
    SetState(d, p.changesetId, Executing).(approvals := Spend(d, p.approvals), starts := d.starts + [Start(p, d.now, d.generation)])
  }

  function SetOperationJob(d: Db, jobId: string, s: JobState): Db
    requires jobId in d.operationJobs
  {
    d.(operationJobs := d.operationJobs[jobId := d.operationJobs[jobId].(state := s)])
  }

  function SetProviderJob(d: Db, jobId: string, s: JobState): Db
    requires jobId in d.providerJobs
  {
    d.(providerJobs := d.providerJobs[jobId := d.providerJobs[jobId].(state := s)])
  }

  /** `authorize_operation_job`: a new ticket for the selected approvals. */
  ghost predicate CanAuthorize(w: World, d: Db, jobId: string, ids: seq<string>) {
    && jobId in d.operationJobs
    && var j := d.operationJobs[jobId];
       (j.state == Waiting || j.state == Ready) && OperationAuthorized(w, d, j, ids)
  }

  function OperationTicket(d: Db, jobId: string, ids: seq<string>): Ticket
    requires jobId in d.operationJobs
    requires d.operationJobs[jobId].changesetId in d.changesets && d.operationJobs[jobId].planId in d.operationPlans
    requires forall n | 0 <= n < |ids| :: ids[n] in d.approvals
  {
    var j := d.operationJobs[jobId];
    TicketFor(d, j.changesetId, OperationPreconditions(d, jobId, j), Ttl(d, d.changesets[j.changesetId], ids))
  }

  function WithTicket(w: World, d: Db, jobId: string, t: Ticket, ids: seq<string>): Db
    requires jobId in d.operationJobs
  {
    var granted := Authorization(w.ticketHash(t), t.issuedAt, t.expiresAt, ids);
    d.(operationJobs := d.operationJobs[jobId := d.operationJobs[jobId].(state := Ready, authorization := Some(granted), issued := Some(t))])
  }

  /** The checks of a start of an operation job, ending in the request that will be written. */
  ghost predicate OperationReadOk(w: World, d: Db, p: Prepared, signature: string) {
    && p.kind == Operation && p.jobId in d.operationJobs
    && var j := d.operationJobs[p.jobId];
       && j.state == Ready && j.changesetId == p.changesetId
       && OperationAuthorized(w, d, j, p.approvals) && OperationTicketOk(w, d, p.jobId, j, p.ticket, signature, true)
       && Elems(j.authorization.value.approvalIds) == Elems(p.approvals)
       && p.snapshot == d.targets[d.changesets[p.changesetId].targetId] && p.readAt == d.now && p.generation == d.generation
  }

  /** The guarded writes: all or nothing. */
  predicate CanWrite(d: Db, p: Prepared) {
    && p.changesetId in d.changesets && AllSpendable(d, p.approvals)
    && (p.kind == Operation ==> p.jobId in d.operationJobs)
    && (p.kind == Provision ==> p.jobId in d.providerJobs)
  }

  function Written(d: Db, p: Prepared): Db
    requires CanWrite(d, p)
  {
    match p.kind
    case Operation => SetOperationJob(Begun(d, p), p.jobId, Running)
    case Provision => SetProviderJob(Begun(d, p), p.jobId, Running)
    case Direct => Begun(d, p)
  }

  ghost predicate ProviderReadOk(w: World, d: Db, p: Prepared, signature: string) {
    && p.kind == Provision && p.jobId in d.providerJobs
    && var j := d.providerJobs[p.jobId];
       && j.state == Ready && j.operation == "cluster.provision.apply" && j.changesetId == p.changesetId
       && ProviderAuthorized(d, j) && TicketGenuine(w, p.ticket, signature, d.now, true)
       && TicketMatches(w, d, p.changesetId, j.authorization, ProviderPreconditions(d, p.jobId, j), p.ticket)
       && QuorumIs(w, d, p.changesetId, p.approvals) && Elems(j.authorization.value.approvalIds) == Elems(p.approvals)
       && p.readAt == d.now && p.generation == d.generation
  }

  /** The first block of `execute_changeset`, which issues its own ticket. */
  ghost predicate DirectReadOk(w: World, d: Db, p: Prepared) {
    && p.kind == Direct && p.changesetId in d.changesets
    && var c := d.changesets[p.changesetId];
       && CurrentGeneration(d, c) && (c.state == Previewed || c.state == Approved)
       && w.hash(c.plan) == c.planHash && Undrifted(d, c)
       && c.preview.Some? && c.preview.value.source == "kubernetes-broker"
       && QuorumIs(w, d, p.changesetId, p.approvals)
       && p.ticket == TicketFor(d, p.changesetId, ForPreview(c.preview.value.preconditions), TICKET_SECONDS)
       && p.snapshot == d.targets[c.targetId] && p.readAt == d.now && p.generation == d.generation
  }

  // ---- After a start ------------------------------------------------------------------------------

  /** The closing block of an operation job: job and ChangeSet take their final states. */
  function Finished(d: Db, jobId: string, succeeded: bool): Db
    requires jobId in d.operationJobs && d.operationJobs[jobId].changesetId in d.changesets
  {
    SetState(SetOperationJob(d, jobId, if succeeded then Succeeded else JobFailed), d.operationJobs[jobId].changesetId,
             if succeeded then Executed else Failed)
  }

  /** `transition_operation_job` other than a start: what may follow what. */
  predicate Allowed(from: JobState, to: JobState) {
    match from
    case Ready => to == Running || to == JobFailed
    case Running => to == Running || to == Paused || to == Succeeded || to == JobFailed
    case Paused => to == Running || to == JobFailed
    case _ => false
  }

  /** The job moves and the ChangeSet follows it into a final state. */
  function Moved(d: Db, jobId: string, to: JobState): Db
    requires jobId in d.operationJobs && d.operationJobs[jobId].changesetId in d.changesets
  {
    var moved := SetOperationJob(d, jobId, to);
    var id := d.operationJobs[jobId].changesetId;
    if to == Succeeded then SetState(moved, id, Executed) else if to == JobFailed then SetState(moved, id, Failed) else moved
  }

  /** A job past its start moves only while its ChangeSet executes, under its own ticket, fresh or not. */
  predicate CanMove(w: World, d: Db, jobId: string, to: JobState, t: Ticket, signature: string) {
    && jobId in d.operationJobs
    && var j := d.operationJobs[jobId];
       && (j.state == Running || j.state == Paused) && Allowed(j.state, to)
       && OperationTicketOk(w, d, jobId, j, t, signature, false) && d.changesets[j.changesetId].state == Executing
  }

  /** A READY job is failed without starting, under the checks of a start. */
  ghost predicate CanAbandon(w: World, d: Db, jobId: string, t: Ticket, signature: string, ids: seq<string>) {
    && jobId in d.operationJobs
    && var j := d.operationJobs[jobId];
       && j.state == Ready && OperationAuthorized(w, d, j, ids) && OperationTicketOk(w, d, jobId, j, t, signature, true)
       && Elems(j.authorization.value.approvalIds) == Elems(ids)
  }
}
