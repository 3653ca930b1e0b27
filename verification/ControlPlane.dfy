/**
  The request handlers themselves, over the tables they update in place. Each handler either refuses, leaving
  the database as the lookup of its ChangeSet left it, or commits exactly one step of the transition system in
  module Runs. Two cases are two steps in one transaction: planning a mutation, and a start in one block.
 */
module ControlPlane {
  import opened Ordering
  import opened Json
  import opened Wrappers
  import opened Tables
  import opened Handlers
  import opened Runs
  import opened Approvals
  import PlanHash
  import Risk

  class ControlPlane {
    const w: World
    var now: int
    var generation: int
    var changesets: map<string, Changeset>
    var approvals: map<string, Approval>
    var operationPlans: map<string, OperationPlan>
    var operationJobs: map<string, OperationJob>
    var providerJobs: map<string, ProviderJob>
    var targets: map<string, Json>
    var starts: seq<Start>
    var inFlight: set<Prepared>

    function State(): Db
      reads this
    {
      Db(now, generation, changesets, approvals, operationPlans, operationJobs, providerJobs, targets, starts, inFlight)
    }

    constructor (w: World, now: int, targets: map<string, Json>)
      ensures this.w == w
      ensures State() == Db(now, 1, map[], map[], map[], map[], map[], targets, [], {})
    {
      this.w, this.now, this.generation, this.targets := w, now, 1, targets;
      changesets, approvals, operationPlans, operationJobs, providerJobs := map[], map[], map[], map[], map[];
      starts, inFlight := [], {};
    }

    /** `_changeset`: looking a row up expires it first. */
    method LookUp(id: string)
      modifies this`changesets
      ensures State() == Touch(old(State()), id)
      ensures Next(w, old(State()), Expire(id), State())
    {
      if id in changesets && changesets[id].expiresAt != 0 && changesets[id].expiresAt < now && !Terminal(changesets[id].state) {
        changesets := changesets[id := changesets[id].(state := Expired)];
      }
    }

    /** `_insert_changeset`: a plan of the current target and policy is hashed and stored. */
    method InsertChangeset(id: string, operation: string, adapter: string, targetId: string, requestedBy: string,
                           sourceRevision: Json, parameters: Json, ttl: int, preview: Option<Preview>) returns (ok: bool)
      modifies this`changesets
      ensures ok <==> CanPlan(old(State()), id, targetId)
      ensures ok ==> id in changesets && Next(w, old(State()), Plan(id, changesets[id]), State())
      ensures operationPlans == old(operationPlans) && operationJobs == old(operationJobs)
      ensures ok ==> changesets[id].operation == operation && changesets[id].targetId == targetId && changesets[id].requestedBy == requestedBy
      ensures ok ==> changesets[id].expiresAt == now + ttl && changesets[id].preview == preview
      ensures ok ==> changesets[id].state == if preview.Some? then Previewed else Tables.State.Planned
      ensures ok ==> PlanCarries(changesets[id].planned, operation, adapter, targetId, sourceRevision, parameters, generation, targets[targetId])
      ensures !ok ==> State() == old(State())
    {
      if id in changesets || targetId !in targets || Get(targets[targetId], "status") != Str("configured") {
        return false;
      }
      PlanDocumentFields(State(), operation, adapter, targetId, sourceRevision, parameters);
      var plan := PlanDocument(State(), operation, adapter, targetId, sourceRevision, parameters);
      PlannedRow(w, State(), id, operation, targetId, requestedBy, plan, ttl, preview);
      StoreChangeset(id, NewChangeset(w, State(), operation, targetId, requestedBy, plan, ttl, preview));
      return true;
    }

    /** `INSERT INTO changesets`. */
    method StoreChangeset(id: string, c: Changeset)
      requires NewRow(w, State(), id, c)
      modifies this`changesets
      ensures id in changesets && changesets[id] == c && Next(w, old(State()), Plan(id, c), State())
    {
      ghost var d := State();
      changesets := changesets[id := c];
      assert State() == WithChangeset(d, id, c);
    }

    /** `_store_operation_plan`: the operation plan and its job, waiting. */
    method StoreOperationPlan(id: string, planId: string, jobId: string, typedPlan: Json, executor: string)
      requires id in changesets && planId !in operationPlans && jobId !in operationJobs
      modifies this`operationPlans, this`operationJobs
      ensures planId in operationPlans && jobId in operationJobs
      ensures Next(w, old(State()), AddJob(planId, operationPlans[planId], jobId, operationJobs[jobId]), State())
      ensures operationPlans[planId] == OperationPlan(id, typedPlan)
      ensures operationJobs[jobId].planHash == changesets[id].planHash && operationJobs[jobId].changesetId == id
      ensures operationJobs[jobId].planId == planId && operationJobs[jobId].executor == executor
      ensures operationJobs[jobId].typedHash == Get(typedPlan, PlanHash.PLAN_HASH)
    {
      operationPlans := operationPlans[planId := OperationPlan(id, typedPlan)];
      operationJobs := operationJobs[jobId := OperationJob(planId, id, executor, changesets[id].planHash,
                                                           Get(typedPlan, PlanHash.PLAN_HASH), Waiting, None, None)];
    }

    /** `_plan_mutation`: a previewed ChangeSet around the typed plan, its operation plan and its job. */
    method PlanMutation(id: string, planId: string, jobId: string, typedPlan: Json, operation: string, adapter: string, targetId: string,
                        requestedBy: string, resourceType: Json, executor: string, ttl: int) returns (ok: bool, ghost planned: Db)
      requires planId !in operationPlans && jobId !in operationJobs
      modifies this`changesets, this`operationPlans, this`operationJobs
      ensures ok <==> CanPlan(old(State()), id, targetId)
      ensures ok ==> id in changesets && planId in operationPlans && jobId in operationJobs
      ensures ok ==> Next(w, old(State()), Plan(id, changesets[id]), planned)
      ensures ok ==> Next(w, planned, AddJob(planId, operationPlans[planId], jobId, operationJobs[jobId]), State())
      ensures ok ==> changesets[id].operation == Risk.PlannedOperation(operation) && TypedPlan(changesets[id].planned) == typedPlan
      ensures ok ==> Get(changesets[id].planned, "adapter") == Str(adapter) && Get(changesets[id].planned, "target_id") == Str(targetId)
      ensures ok ==> Get(Get(changesets[id].planned, "parameters"), "resource_type") == resourceType
      ensures ok ==> changesets[id].targetId == targetId && changesets[id].requestedBy == requestedBy && changesets[id].expiresAt == now + ttl
      ensures ok ==> changesets[id].preview == Some(Preview("operations-center-deterministic-planner", Null))
      ensures ok ==> changesets[id].state == Previewed && operationJobs[jobId].executor == executor && operationJobs[jobId].changesetId == id
      ensures ok ==> operationJobs[jobId].planId == planId && operationJobs[jobId].typedHash == Get(typedPlan, PlanHash.PLAN_HASH)
      ensures ok ==> operationPlans[planId] == OperationPlan(id, typedPlan) && operationJobs[jobId].planHash == changesets[id].planHash
      ensures !ok ==> State() == old(State())
    {
      var parameters := Obj([Field("resource_type", resourceType), Field("typed_plan", typedPlan)]);
      ParametersCarryPlan(resourceType, typedPlan);
      ok := InsertChangeset(id, Risk.PlannedOperation(operation), adapter, targetId, requestedBy, Null, parameters, ttl,
                            Some(Preview("operations-center-deterministic-planner", Null)));
      planned := State();
      if ok {
        StoreOperationPlan(id, planId, jobId, typedPlan, executor);
      }
    }

    /** `preview_changeset`. */
    method PreviewChangeset(id: string, shown: Preview) returns (ok: bool)
      modifies this`changesets
      ensures ok <==> var d := Touch(old(State()), id);
                      && id in d.changesets && d.changesets[id].generation == generation
                      && (d.changesets[id].state == Planned || d.changesets[id].state == Previewed)
      ensures if ok then Next(w, Touch(old(State()), id), Show(id, shown), State()) else State() == Touch(old(State()), id)
    {
      LookUp(id);
      if id !in changesets || changesets[id].generation != generation {
        return false;
      }
      if changesets[id].state != Planned && changesets[id].state != Previewed {
        return false;
      }
      changesets := changesets[id := changesets[id].(preview := Some(shown), state := Previewed)];
      return true;
    }

    /** `request_approval`. */
    method RequestApproval(id: string) returns (ok: bool)
      modifies this`changesets
      ensures ok <==> var d := Touch(old(State()), id);
                      && id in d.changesets && d.changesets[id].generation == generation
                      && d.changesets[id].approvalRequired && d.changesets[id].state == Previewed
      ensures if ok then Next(w, Touch(old(State()), id), Event.RequestApproval(id), State()) else State() == Touch(old(State()), id)
    {
      LookUp(id);
      if id !in changesets || changesets[id].generation != generation {
        return false;
      }
      if !changesets[id].approvalRequired || changesets[id].state != Previewed {
        return false;
      }
      changesets := changesets[id := changesets[id].(state := AwaitingApproval)];
      return true;
    }

    /** `approve_changeset`: a signed approval, and APPROVED once enough different approvers have one. */
    method ApproveChangeset(id: string, approvalId: string, approver: string, planHash: string, ttl: int, nonce: string) returns (ok: bool)
      modifies this`changesets, this`approvals
      ensures ok <==> var d := Touch(old(State()), id);
                      && id in d.changesets && approvalId !in d.approvals
                      && var c := d.changesets[id];
                         && c.generation == generation && c.state == AwaitingApproval && c.planHash == planHash
                         && ((c.risk == Risk.High || c.risk == Risk.Critical) ==> approver != c.requestedBy)
                         && !HasLive(d, id, approver)
      ensures if ok then Next(w, Touch(old(State()), id), Approve(id, approvalId, approver, planHash, ttl, nonce), State())
              else State() == Touch(old(State()), id)
      ensures ok ==> approvalId in approvals && id in changesets && Signed(w, now, changesets[id], id, approvalId, approver, ttl, nonce, approvals[approvalId])
    {
      LookUp(id);
      if id !in changesets || approvalId in approvals || changesets[id].generation != generation {
        return false;
      }
      var row := changesets[id];
      if row.state != AwaitingApproval || planHash != row.planHash {
        return false;
      }
      if (row.risk == Risk.High || row.risk == Risk.Critical) && approver == row.requestedBy {
        return false;
      }
      HasLiveIff(State(), id, approver);
      if approver in Approvers(State(), id) {
        return false;
      }
      InsertApproval(id, approvalId, approver, planHash, ttl, nonce);
      return true;
    }

    /** The approval is inserted, and then the approvers are counted. */
    method InsertApproval(id: string, approvalId: string, approver: string, planHash: string, ttl: int, nonce: string)
      requires CanApprove(State(), id, approvalId, approver, planHash)
      modifies this`approvals, this`changesets
      ensures Next(w, old(State()), Approve(id, approvalId, approver, planHash, ttl, nonce), State())
      ensures approvalId in approvals && id in changesets && Signed(w, now, changesets[id], id, approvalId, approver, ttl, nonce, approvals[approvalId])
    {
      ghost var d := State();
      var x := NewApproval(w, State(), id, approvalId, approver, ttl, nonce);
      ApproveStep(w, d, id, approvalId, approver, planHash, ttl, nonce);
      approvals := approvals[approvalId := x];
      assert State() == d.(approvals := d.approvals[approvalId := x]);
      var count := |Approvers(State(), id)|;
      changesets := changesets[id := changesets[id].(state := if count >= Required(changesets[id]) then Approved else AwaitingApproval)];
      assert State() == WithApproval(d, id, approvalId, x);
    }

    /** `UPDATE approvals SET status=... WHERE changeset_id IN (...) AND status='APPROVED'`. */
    method WithdrawApprovals(ids: set<string>, reason: State)
      modifies this`approvals
      ensures approvals == Withdraw(old(approvals), ids, reason)
    {
      approvals := map i | i in approvals ::
        if approvals[i].changesetId in ids && approvals[i].status == Granted then approvals[i].(status := Withdrawn(reason)) else approvals[i];
    }

    /** `reject_changeset`. */
    method RejectChangeset(id: string) returns (ok: bool)
      modifies this`changesets, this`approvals
      ensures ok <==> var d := Touch(old(State()), id);
                      id in d.changesets && d.changesets[id].generation == generation && !Terminal(d.changesets[id].state)
      ensures if ok then Next(w, Touch(old(State()), id), Reject(id), State()) else State() == Touch(old(State()), id)
    {
      LookUp(id);
      if id !in changesets || changesets[id].generation != generation || Terminal(changesets[id].state) {
        return false;
      }
      ghost var d := State();
      RejectStep(w, d, id);
      changesets := changesets[id := changesets[id].(state := Rejected)];
      WithdrawApprovals({id}, Rejected);
      assert State() == Ended(d, id, Rejected);
      return true;
    }

    /** `cancel_changeset`: the policy generation does not matter. */
    method CancelChangeset(id: string) returns (ok: bool)
      modifies this`changesets, this`approvals
      ensures ok <==> var d := Touch(old(State()), id); id in d.changesets && !Terminal(d.changesets[id].state)
      ensures if ok then Next(w, Touch(old(State()), id), Cancel(id), State()) else State() == Touch(old(State()), id)
    {
      LookUp(id);
      if id !in changesets || Terminal(changesets[id].state) {
        return false;
      }
      ghost var d := State();
      CancelStep(w, d, id);
      changesets := changesets[id := changesets[id].(state := Cancelled)];
      WithdrawApprovals({id}, Cancelled);
      assert State() == Ended(d, id, Cancelled);
      return true;
    }

    /** `UPDATE changesets SET state='STALE_POLICY' WHERE policy_generation<>? AND state IN (...)`. */
    method StaleChangesets()
      modifies this`changesets
      ensures changesets == Staled(old(changesets), generation)
    {
      changesets := map id | id in changesets ::
        if changesets[id].generation != generation && Undecided(changesets[id].state) then changesets[id].(state := StalePolicy) else changesets[id];
    }

    /** `bump_policy_generation`. */
    method BumpPolicyGeneration()
      modifies this`generation, this`changesets, this`approvals
      ensures State() == Bumped(old(State())) && Next(w, old(State()), Bump, State())
    {
      ghost var d := State();
      BumpStep(w, d);
      generation := generation + 1;
      StaleChangesets();
      WithdrawApprovals(StaleIds(changesets), StalePolicy);
      assert State() == d.(generation := generation, changesets := changesets, approvals := approvals);
    }

    /** The write that ends a live preview or an execution: it looks at nothing but the row's existence. */
    method FinishChangeset(id: string, report: Option<Preview>, state: State)
      requires EndState(state)
      modifies this`changesets
      ensures if id in old(changesets) then Next(w, old(State()), Finish(id, report, state), State()) else State() == old(State())
    {
      if id in changesets {
        var preview := if report.Some? then report else changesets[id].preview;
        changesets := changesets[id := changesets[id].(preview := preview, state := state)];
      }
    }

    // ---- Job starts ---------------------------------------------------------------------------------

    /**
      `_verify_operation_job_authorization` after the job row was read: the approvals a start would consume.
      `supplyIntact` is the outcome of resolving a PXE plan's artifact manifest again.
     */
    method VerifyAuthorization(jobId: string, supplyIntact: bool) returns (ids: Option<seq<string>>)
      requires jobId in operationJobs
      modifies this`changesets
      ensures State() == Touch(old(State()), old(operationJobs)[jobId].changesetId)
      ensures ids.Some? ==> OperationAuthorized(w, State(), operationJobs[jobId], ids.value)
      ensures ids.None? ==> !supplyIntact || forall other :: !OperationAuthorized(w, State(), operationJobs[jobId], other)
    {
      var j := operationJobs[jobId];
      LookUp(j.changesetId);
      if !Bound(w, State(), j) || !supplyIntact {
        return None;
      }
      var c := changesets[j.changesetId];
      if c.generation != generation || !Authorized(c) {
        return None;
      }
      if !Undrifted(State(), c) || !TargetsUndrifted(State(), operationPlans[j.planId].plan) {
        return None;
      }
      ids := ValidApprovalIds(w, State(), j.changesetId);
      if ids.None? {
        NoQuorum(w, State(), j.changesetId);
      }
    }

    /** `authorize_operation_job`: a fresh ticket over the approvals now chosen. */
    method AuthorizeOperationJob(jobId: string, supplyIntact: bool)
        returns (ticket: Option<(Ticket, string)>, ghost ids: seq<string>, ghost looked: Db)
      requires jobId in operationJobs
      modifies this`changesets, this`operationJobs
      ensures looked == old(State()) || looked == Touch(old(State()), old(operationJobs)[jobId].changesetId)
      ensures if ticket.Some? then Next(w, looked, Authorize(jobId, ids), State()) else State() == looked
      ensures ticket.None? && supplyIntact ==> forall other :: !CanAuthorize(w, looked, jobId, other)
      ensures ticket.Some? ==>
                jobId in operationJobs && operationJobs[jobId].issued == Some(ticket.value.0) && ticket.value.1 == w.sign(ticket.value.0)
      ensures ticket.Some? ==> Describes(State(), jobId, ticket.value.0) && Lasts(State(), jobId, ids, ticket.value.0) && operationJobs[jobId].state == Ready
    {
      ids, looked := [], State();
      if operationJobs[jobId].state != Waiting && operationJobs[jobId].state != Ready {
        return None, ids, looked;
      }
      var chosen := VerifyAuthorization(jobId, supplyIntact);
      looked := State();
      if chosen.None? {
        return None, ids, looked;
      }
      ids := chosen.value;
      var t := IssueTicket(jobId, chosen.value);
      return Some((t, w.sign(t))), ids, looked;
    }

    /** `_issue_operation_job_ticket`, and the job is ready. */
    method IssueTicket(jobId: string, ids: seq<string>) returns (t: Ticket)
      requires jobId in operationJobs && (operationJobs[jobId].state == Waiting || operationJobs[jobId].state == Ready)
      requires OperationAuthorized(w, State(), operationJobs[jobId], ids)
      modifies this`operationJobs
      ensures Next(w, old(State()), Authorize(jobId, ids), State())
      ensures jobId in operationJobs && operationJobs[jobId].issued == Some(t)
      ensures Describes(State(), jobId, t) && Lasts(State(), jobId, ids, t)
      ensures operationJobs[jobId].state == Ready && operationJobs[jobId].authorization ==
                Some(Authorization(w.ticketHash(t), t.issuedAt, t.expiresAt, ids))
    {
      ghost var d := State();
      AuthorizedRows(w, d, operationJobs[jobId], ids);
      t := OperationTicket(State(), jobId, ids);
      var granted := Authorization(w.ticketHash(t), t.issuedAt, t.expiresAt, ids);
      operationJobs := operationJobs[jobId := operationJobs[jobId].(state := Ready, authorization := Some(granted), issued := Some(t))];
      TicketStep(w, d, jobId, ids, t, State());
    }

    /**
      The checks of a job start (`execute_operation_job` and `transition_operation_job` up to their first
      write): a request in flight, or a refusal.
     */
    method CheckOperationStart(jobId: string, ticket: Ticket, signature: string, supplyIntact: bool)
        returns (p: Option<Prepared>, ghost looked: Db)
      requires jobId in operationJobs
      modifies this`changesets, this`inFlight
      ensures looked == old(State()) || looked == Touch(old(State()), old(operationJobs)[jobId].changesetId)
      ensures p.Some? ==> p.value.jobId == jobId && p.value.ticket == ticket && p.value.kind == Operation
      ensures if p.Some? then Next(w, looked, Read(p.value, signature), State()) else State() == looked
      ensures p.None? && supplyIntact ==> NoStartPasses(w, looked, jobId, ticket, signature)
    {
      looked := State();
      if operationJobs[jobId].state != Ready {
        UnreadyNoStart(w, looked, jobId, ticket, signature);
        return None, looked;
      }
      var j := operationJobs[jobId];
      var ids := VerifyAuthorization(jobId, supplyIntact);
      looked := State();
      if ids.None? {
        if supplyIntact {
          UnauthorizedNoStart(w, looked, jobId, ticket, signature);
        }
        return None, looked;
      }
      if !OperationTicketOk(w, State(), jobId, j, ticket, signature, true) {
        OtherTicketNoStart(w, looked, jobId, ticket, signature);
        return None, looked;
      }
      if (set i | i in j.authorization.value.approvalIds) != (set i | i in ids.value) {
        OtherApprovalsNoStart(w, looked, jobId, ticket, signature, ids.value);
        return None, looked;
      }
      AuthorizedRows(w, looked, j, ids.value);
      var request := Prepared(Operation, jobId, j.changesetId, ids.value, ticket, targets[changesets[j.changesetId].targetId], now, generation);
      ReadIsOk(w, looked, request, signature);
      Admit(request, signature);
      return Some(request), looked;
    }

    /** A request that passed its checks is in flight. */
    method Admit(p: Prepared, signature: string)
      requires p.kind != Direct && ReadOk(w, State(), p, signature)
      modifies this`inFlight
      ensures Next(w, old(State()), Read(p, signature), State())
    {
      ghost var d := State();
      inFlight := inFlight + {p};
      assert State() == d.(inFlight := d.inFlight + {p});
    }

    /** The rows that `WHERE id IN (...) AND status='APPROVED' AND consumed_at IS NULL` updates. */
    method Consume(ids: seq<string>) returns (rowCount: nat)
      modifies this`approvals
      ensures approvals == Spend(old(State()), ids)
      ensures rowCount == |StillSpendable(old(State()), ids)|
    {
      rowCount := |StillSpendable(State(), ids)|;
      approvals := map i | i in approvals ::
        if i in ids && approvals[i].status == Granted && approvals[i].consumedAt == None
        then approvals[i].(status := Consumed, consumedAt := Some(now)) else approvals[i];
    }

    /**
      The writes of a job start. A row count other than the number of approvals raises, which rolls the
      transaction back.
     */
    method WriteOperationStart(p: Prepared) returns (ok: bool)
      requires p in inFlight && p.kind == Operation && p.jobId in operationJobs && p.changesetId in changesets && Distinct(p.approvals)
      modifies this`approvals, this`changesets, this`operationJobs, this`starts
      ensures ok <==> CanWrite(old(State()), p)
      ensures if ok then Next(w, old(State()), Write(p), State()) && State() == Written(old(State()), p) else State() == old(State())
    {
      ghost var d := State();
      RowCountDecides(d, p);
      var before := approvals;
      var rowCount := Consume(p.approvals);
      if rowCount != |p.approvals| {
        approvals := before;
        return false;
      }
      operationJobs := operationJobs[p.jobId := operationJobs[p.jobId].(state := Running)];
      changesets := changesets[p.changesetId := changesets[p.changesetId].(state := Executing)];
      starts := starts + [Start(p, now, generation)];
      OperationStarts(w, d, p, State());
      return true;
    }

    /** Whether a runtime is registered for the executor. */
    method FindRuntime(executor: string) returns (found: bool)
      ensures found <==> HasRuntime(executor)
    {
      HasRuntimeIff(executor);
      return executor in EXECUTORS;
    }

    /**
      The first block of `execute_operation_job`: the checks, the runtime's own guard, and the writes. Without
      the request left in flight, checks and writes together are one step.
     */
    method ExecuteOperationJob(jobId: string, ticket: Ticket, signature: string, supplyIntact: bool)
        returns (ok: bool, ghost looked: Db, ghost checked: Db, ghost p: Prepared)
      requires jobId in operationJobs
      modifies this`approvals, this`changesets, this`operationJobs, this`starts, this`inFlight
      ensures looked == old(State()) || looked == Touch(old(State()), old(operationJobs)[jobId].changesetId)
      ensures ok ==> HasRuntime(old(operationJobs)[jobId].executor)
      ensures ok ==> p.jobId == jobId && p.ticket == ticket && Next(w, looked, Read(p, signature), checked)
      ensures ok ==> Next(w, checked, Write(p), State())
      ensures ok ==> Next(w, looked, Begin(p, signature), State().(inFlight := looked.inFlight))
      ensures !ok ==> State() == looked || Next(w, looked, Read(p, signature), State())
      ensures !ok && supplyIntact ==>
                var j := old(operationJobs)[jobId];
                || !HasRuntime(j.executor) || NoStartPasses(w, looked, jobId, ticket, signature)
                || (j.planId in old(operationPlans) && !w.capable(j.executor, old(operationPlans)[j.planId].plan))
    {
      looked, checked, p := State(), State(), Prepared(Operation, jobId, "", [], ticket, Null, now, generation);
      var found := FindRuntime(operationJobs[jobId].executor);
      if !found {
        return false, looked, checked, p;
      }
      var request;
      request, looked := CheckOperationStart(jobId, ticket, signature, supplyIntact);
      if request.None? {
        return false, looked, checked, p;
      }
      checked, p := State(), request.value;
      CheckedRows(w, looked, p, signature, checked);
      var j := operationJobs[jobId];
      if !w.capable(j.executor, operationPlans[j.planId].plan) {
        return false, looked, checked, p;
      }
      ok := WriteOperationStart(request.value);
      BlockOf(w, looked, p, signature, checked, State());
    }

    /** The end of `execute_operation_job`, whatever the runtime returned. */
    method FinishOperationJob(jobId: string, succeeded: bool)
      requires jobId in operationJobs && operationJobs[jobId].changesetId in changesets
      modifies this`changesets, this`operationJobs
      ensures Next(w, Touch(old(State()), old(operationJobs)[jobId].changesetId), FinishJob(jobId, succeeded), State())
      ensures var id := old(operationJobs)[jobId].changesetId;
              && jobId in operationJobs && operationJobs[jobId].state == (if succeeded then Succeeded else JobFailed)
              && id in changesets && changesets[id].state == if succeeded then Executed else Failed
    {
      var id := operationJobs[jobId].changesetId;
      LookUp(id);
      operationJobs := operationJobs[jobId := operationJobs[jobId].(state := if succeeded then Succeeded else JobFailed)];
      changesets := changesets[id := changesets[id].(state := if succeeded then Executed else Failed)];
    }

    /** The writes of a transition: the job moves, and its ChangeSet follows into a final state. */
    method SettleJob(jobId: string, to: JobState)
      requires jobId in operationJobs && operationJobs[jobId].changesetId in changesets
      modifies this`changesets, this`operationJobs
      ensures State() == Moved(old(State()), jobId, to)
      ensures var id := old(operationJobs)[jobId].changesetId;
              && jobId in operationJobs && operationJobs[jobId].state == to && id in changesets
              && (to == Succeeded ==> changesets[id].state == Executed) && (to == JobFailed ==> changesets[id].state == Failed)
              && (to != Succeeded && to != JobFailed ==> changesets[id].state == old(changesets)[id].state)
    {
      var id := operationJobs[jobId].changesetId;
      operationJobs := operationJobs[jobId := operationJobs[jobId].(state := to)];
      if to == Succeeded {
        changesets := changesets[id := changesets[id].(state := Executed)];
      } else if to == JobFailed {
        changesets := changesets[id := changesets[id].(state := Failed)];
      }
    }

    /** `transition_operation_job` on a job that has started, once its ChangeSet was looked up. */
    method MoveStartedJob(jobId: string, to: JobState, ticket: Ticket, signature: string) returns (ok: bool)
      modifies this`changesets, this`operationJobs
      ensures ok <==> CanMove(w, old(State()), jobId, to, ticket, signature)
      ensures if ok then Next(w, old(State()), Move(jobId, to, ticket, signature), State()) else State() == old(State())
    {
      if !CanMove(w, State(), jobId, to, ticket, signature) {
        return false;
      }
      MoveStep(w, State(), jobId, to, ticket, signature);
      SettleJob(jobId, to);
      return true;
    }

    /** `transition_operation_job` on a job that is not READY. */
    method MoveOperationJob(jobId: string, to: JobState, ticket: Ticket, signature: string) returns (ok: bool, ghost looked: Db)
      requires jobId in operationJobs && operationJobs[jobId].state != Ready
      modifies this`changesets, this`operationJobs
      ensures looked == old(State()) || looked == Touch(old(State()), old(operationJobs)[jobId].changesetId)
      ensures ok <==> CanMove(w, looked, jobId, to, ticket, signature)
      ensures if ok then Next(w, looked, Move(jobId, to, ticket, signature), State()) else State() == looked
    {
      looked := State();
      if !Allowed(operationJobs[jobId].state, to) {
        return false, looked;
      }
      LookUp(operationJobs[jobId].changesetId);
      looked := State();
      ok := MoveStartedJob(jobId, to, ticket, signature);
    }

    /** `transition_operation_job` on a READY job: it starts, or fails without having started. */
    method AbandonOperationJob(jobId: string, ticket: Ticket, signature: string, supplyIntact: bool) returns (ok: bool, ghost ids: seq<string>)
      requires jobId in operationJobs && operationJobs[jobId].state == Ready
      modifies this`changesets, this`operationJobs
      ensures ok ==> Next(w, Touch(old(State()), old(operationJobs)[jobId].changesetId), Abandon(jobId, ticket, signature, ids), State())
      ensures !ok ==> State() == Touch(old(State()), old(operationJobs)[jobId].changesetId)
      ensures !ok && supplyIntact ==> forall other :: !CanAbandon(w, State(), jobId, ticket, signature, other)
    {
      ids := [];
      var j := operationJobs[jobId];
      var chosen := VerifyAuthorization(jobId, supplyIntact);
      if chosen.None? {
        return false, ids;
      }
      if !OperationTicketOk(w, State(), jobId, j, ticket, signature, true) {
        return false, ids;
      }
      if (set i | i in j.authorization.value.approvalIds) != (set i | i in chosen.value) {
        OtherApprovalsNoAbandon(w, State(), jobId, ticket, signature, chosen.value);
        return false, ids;
      }
      ids := chosen.value;
      AbandonStep(w, State(), jobId, ticket, signature, ids);
      SettleJob(jobId, JobFailed);
      return true, ids;
    }

    // ---- Provider jobs and direct execution -----------------------------------------------------------

    /**
      The checks of `execute_provider_job`. `manifestIntact` is the outcome of resolving the blueprint's
      artifact manifest again.
     */
    method CheckProviderStart(jobId: string, ticket: Ticket, signature: string, manifestIntact: bool) returns (p: Option<Prepared>)
      modifies this`changesets, this`inFlight
      ensures p.Some? ==> jobId in old(providerJobs) && p.value.jobId == jobId && p.value.ticket == ticket && p.value.kind == Provision
      ensures p.Some? ==> Next(w, Touch(old(State()), old(providerJobs)[jobId].changesetId), Read(p.value, signature), State())
      ensures p.None? ==> State() == old(State()) || (jobId in old(providerJobs) && State() == Touch(old(State()), old(providerJobs)[jobId].changesetId))
      ensures p.None? && manifestIntact ==> NoProviderStartPasses(w, State(), jobId, ticket, signature)
    {
      if jobId !in providerJobs || !Provisions(providerJobs[jobId]) {
        UnreadyNoProviderStart(w, State(), jobId, ticket, signature);
        return None;
      }
      var j := providerJobs[jobId];
      LookUp(j.changesetId);
      if !manifestIntact {
        return None;
      }
      if !ProviderTicketOk(w, State(), jobId, j, ticket, signature) {
        RefusedNoProviderStart(w, State(), jobId, ticket, signature);
        return None;
      }
      var ids := ValidApprovalIds(w, State(), j.changesetId);
      if ids.None? {
        NoQuorumNoProviderStart(w, State(), jobId, ticket, signature);
        return None;
      }
      if (set i | i in j.authorization.value.approvalIds) != (set i | i in ids.value) {
        OtherApprovalsNoProviderStart(w, State(), jobId, ticket, signature, ids.value);
        return None;
      }
      var request := Prepared(Provision, jobId, j.changesetId, ids.value, ticket, Null, now, generation);
      ProviderReadIsOk(w, State(), request, signature);
      Admit(request, signature);
      return Some(request);
    }

    /** The writes of `execute_provider_job`. */
    method WriteProviderStart(p: Prepared) returns (ok: bool)
      requires p in inFlight && p.kind == Provision && p.jobId in providerJobs && p.changesetId in changesets && Distinct(p.approvals)
      modifies this`approvals, this`changesets, this`providerJobs, this`starts
      ensures ok <==> CanWrite(old(State()), p)
      ensures if ok then Next(w, old(State()), Write(p), State()) else State() == old(State())
    {
      ghost var d := State();
      RowCountDecides(d, p);
      var before := approvals;
      var rowCount := Consume(p.approvals);
      if rowCount != |p.approvals| {
        approvals := before;
        return false;
      }
      providerJobs := providerJobs[p.jobId := providerJobs[p.jobId].(state := Running)];
      changesets := changesets[p.changesetId := changesets[p.changesetId].(state := Executing)];
      starts := starts + [Start(p, now, generation)];
      ProvisionStarts(w, d, p, State());
      return true;
    }

    /** The first block of `execute_changeset`: its update of the approvals is not followed by a row count check. */
    method ExecuteChangeset(id: string) returns (ticket: Option<(Ticket, string)>, ghost p: Prepared)
      modifies this`approvals, this`changesets, this`starts
      ensures ticket.None? ==> State() == Touch(old(State()), id) && forall q: Prepared | q.changesetId == id :: !DirectReadOk(w, State(), q)
      ensures ticket.Some? ==> p.changesetId == id && p.ticket == ticket.value.0 && ticket.value.1 == w.sign(p.ticket)
      ensures ticket.Some? ==> Next(w, Touch(old(State()), id), Begin(p, ticket.value.1), State())
    {
      p := Prepared(Direct, "", id, [], Ticket(id, "", Null, ForPreview(Null), 0, 0), Null, now, generation);
      LookUp(id);
      if id !in changesets || changesets[id].generation != generation {
        return None, p;
      }
      var c := changesets[id];
      if (c.state != Previewed && c.state != Approved) || w.hash(c.plan) != c.planHash || !Undrifted(State(), c) {
        return None, p;
      }
      if c.preview.None? || c.preview.value.source != "kubernetes-broker" {
        return None, p;
      }
      var ids := ValidApprovalIds(w, State(), id);
      if ids.None? {
        NoQuorum(w, State(), id);
        return None, p;
      }
      var t := TicketFor(State(), id, ForPreview(c.preview.value.preconditions), TICKET_SECONDS);
      var request := Prepared(Direct, "", id, ids.value, t, targets[c.targetId], now, generation);
      p := request;
      assert DirectReadOk(w, State(), p);
      StartDirect(request, w.sign(t));
      return Some((t, w.sign(t))), p;
    }

    /** The writes of `execute_changeset`. */
    method StartDirect(p: Prepared, signature: string)
      requires DirectReadOk(w, State(), p)
      modifies this`approvals, this`changesets, this`starts
      ensures Next(w, old(State()), Begin(p, signature), State())
    {
      ghost var d := State();
      DirectStep(w, d, p, signature);
      var _ := Consume(p.approvals);
      changesets := changesets[p.changesetId := changesets[p.changesetId].(state := Executing)];
      starts := starts + [Start(p, now, generation)];
      assert State() == Written(d, p);
    }
  }

  /** The executors that a runtime is registered for. */
  predicate HasRuntime(executor: string) {
    || executor == "kubernetes-broker" || executor == "artifact-mirror-worker" || executor == "cluster-provider-worker"
    || executor == "infrastructure-provider-worker"
  }

  lemma HasRuntimeIff(executor: string)
    ensures HasRuntime(executor) <==> executor in EXECUTORS
  {
  }

  /** The approver's earlier approval of the ChangeSet's plan still stands and has not expired. */
  ghost predicate HasLive(d: Db, id: string, approver: string) {
    exists i | i in d.approvals :: LiveOf(d, id, i) && d.approvals[i].approver == approver
  }

  predicate LiveOf(d: Db, id: string, i: string) {
    && id in d.changesets && i in d.approvals && d.approvals[i].changesetId == id && d.approvals[i].planHash == d.changesets[id].planHash
    && d.approvals[i].status == Granted && d.now <= d.approvals[i].expiresAt
  }

  lemma HasLiveIff(d: Db, id: string, approver: string)
    requires id in d.changesets
    ensures HasLive(d, id, approver) <==> approver in Approvers(d, id)
  {
    if i :| i in d.approvals && LiveOf(d, id, i) && d.approvals[i].approver == approver {
      assert Counts(d, id, i);
    }
    if approver in Approvers(d, id) {
      var i :| i in d.approvals && Counts(d, id, i) && d.approvals[i].approver == approver;
      assert LiveOf(d, id, i);
    }
  }

  /** What a plan document says, key by key. */
  predicate PlanCarries(plan: Json, operation: string, adapter: string, targetId: string, sourceRevision: Json, parameters: Json, generation: int,
                        snapshot: Json) {
    && Says(plan, "schema_version", Num(2)) && Says(plan, "operation", Str(operation)) && Says(plan, "adapter", Str(adapter))
    && Says(plan, "target_id", Str(targetId)) && Says(plan, "source_revision", sourceRevision) && Says(plan, "parameters", parameters)
    && Says(plan, "policy_generation", Num(generation)) && Says(plan, "target_snapshot", snapshot)
  }

  lemma PlanKeysDiffer(d: Db, operation: string, adapter: string, targetId: string, sourceRevision: Json, parameters: Json)
    requires targetId in d.targets
    ensures KeysApart(PlanDocument(d, operation, adapter, targetId, sourceRevision, parameters).fields)
  {
    var fields := PlanDocument(d, operation, adapter, targetId, sourceRevision, parameters).fields;
    assert |fields[0].key| == 14 && |fields[1].key| == 9 && |fields[2].key| == 7 && |fields[3].key| == 9 && |fields[4].key| == 15
           && |fields[5].key| == 10 && |fields[6].key| == 17 && |fields[7].key| == 15;
    assert fields[1].key[0] == 'o' && fields[3].key[0] == 't' && fields[4].key[0] == 's' && fields[7].key[0] == 't';
  }

  /** The fields of a plan as they are read back. */
  lemma PlanDocumentFields(d: Db, operation: string, adapter: string, targetId: string, sourceRevision: Json, parameters: Json)
    requires targetId in d.targets
    ensures PlanCarries(PlanDocument(d, operation, adapter, targetId, sourceRevision, parameters), operation, adapter, targetId, sourceRevision,
                        parameters, d.generation, d.targets[targetId])
  {
    PlanKeysDiffer(d, operation, adapter, targetId, sourceRevision, parameters);
    var fields := PlanDocument(d, operation, adapter, targetId, sourceRevision, parameters).fields;
    FieldSays(fields, 0, "schema_version", Num(2));
    FieldSays(fields, 1, "operation", Str(operation));
    FieldSays(fields, 2, "adapter", Str(adapter));
    FieldSays(fields, 3, "target_id", Str(targetId));
    FieldSays(fields, 4, "source_revision", sourceRevision);
    FieldSays(fields, 5, "parameters", parameters);
    FieldSays(fields, 6, "policy_generation", Num(d.generation));
    FieldSays(fields, 7, "target_snapshot", d.targets[targetId]);
  }

  /** An approval just given: for this plan, signed, and for no longer than the ChangeSet lives. */
  predicate Signed(w: World, now: int, c: Changeset, id: string, approvalId: string, approver: string, ttl: int, nonce: string, x: Approval) {
    && x.changesetId == id && x.planHash == c.planHash && x.approver == approver && x.issuedAt == now && x.generation == c.generation
    && x.nonce == nonce && x.status == Granted && x.consumedAt == None
    && (x.expiresAt == now + ttl || x.expiresAt == c.expiresAt) && x.expiresAt <= now + ttl && (c.expiresAt != 0 ==> x.expiresAt <= c.expiresAt)
    && (c.expiresAt == 0 ==> x.expiresAt == now + ttl)
    && x.mac == w.mac(MacRecord(approvalId, id, x.planHash, approver, now, x.expiresAt, x.generation, nonce))
  }

  /** The ticket names the job, its plan and its ChangeSet's plan and policy as they are. */
  predicate Describes(d: Db, jobId: string, t: Ticket) {
    && jobId in d.operationJobs
    && var j := d.operationJobs[jobId];
       && j.changesetId in d.changesets && j.planId in d.operationPlans
       && var c := d.changesets[j.changesetId];
          && t.changesetId == j.changesetId && t.planHash == c.planHash && t.plan == c.plan
          && t.preconditions == ForOperation(jobId, j.planId, j.executor, Get(d.operationPlans[j.planId].plan, PlanHash.PLAN_HASH), c.generation)
  }

  /** The ticket lives from now on as long as the approvals and the ChangeSet let it. */
  predicate Lasts(d: Db, jobId: string, ids: seq<string>, t: Ticket) {
    && jobId in d.operationJobs && d.operationJobs[jobId].changesetId in d.changesets && (forall i | i in ids :: i in d.approvals)
    && t.issuedAt == d.now && t.expiresAt == d.now + Ttl(d, d.changesets[d.operationJobs[jobId].changesetId], ids)
  }

  /** The row of a plan that holds the target's snapshot. */
  lemma PlannedRow(w: World, d: Db, id: string, operation: string, targetId: string, requestedBy: string, plan: Json, ttl: int, preview: Option<Preview>)
    requires CanPlan(d, id, targetId) && Says(plan, "target_snapshot", d.targets[targetId])
    ensures var c := NewChangeset(w, d, operation, targetId, requestedBy, plan, ttl, preview);
            && NewRow(w, d, id, c) && c.operation == operation && c.targetId == targetId && c.requestedBy == requestedBy && c.planned == plan
            && c.expiresAt == d.now + ttl && c.preview == preview && c.state == if preview.Some? then Previewed else Planned
  {
    EquivalentReflexive(d.targets[targetId]);
  }

  lemma RejectStep(w: World, d: Db, id: string)
    requires CanReject(d, id)
    ensures Next(w, d, Reject(id), Ended(d, id, Rejected))
  {
  }

  lemma CancelStep(w: World, d: Db, id: string)
    requires CanCancel(d, id)
    ensures Next(w, d, Cancel(id), Ended(d, id, Cancelled))
  {
  }

  lemma BumpStep(w: World, d: Db)
    ensures Next(w, d, Bump, Bumped(d))
  {
  }

  lemma MoveStep(w: World, d: Db, jobId: string, to: JobState, t: Ticket, signature: string)
    requires CanMove(w, d, jobId, to, t, signature)
    ensures Movable(d, jobId) && Next(w, d, Move(jobId, to, t, signature), Moved(d, jobId, to))
  {
    MoveRows(w, d, jobId, to, t, signature);
  }

  lemma MoveRows(w: World, d: Db, jobId: string, to: JobState, t: Ticket, signature: string)
    requires CanMove(w, d, jobId, to, t, signature)
    ensures Movable(d, jobId) && Rank(d.operationJobs[jobId].state) == 2 && Rank(to) == 2
  {
  }

  lemma ParametersCarryPlan(resourceType: Json, typedPlan: Json)
    ensures Get(Obj([Field("resource_type", resourceType), Field("typed_plan", typedPlan)]), "typed_plan") == typedPlan
    ensures Get(Obj([Field("resource_type", resourceType), Field("typed_plan", typedPlan)]), "resource_type") == resourceType
  {
    var fields := [Field("resource_type", resourceType), Field("typed_plan", typedPlan)];
    assert fields[0].key != "typed_plan" && fields[1].key == "typed_plan";
    OnlyWithKey(fields, 0);
    OnlyWithKey(fields, 1);
  }

  // ---- Refusals -----------------------------------------------------------------------------------------

  /** No start of this job with this ticket would pass the checks. */
  ghost predicate NoStartPasses(w: World, d: Db, jobId: string, ticket: Ticket, signature: string) {
    forall q: Prepared | q.jobId == jobId && q.ticket == ticket :: !OperationReadOk(w, d, q, signature)
  }

  ghost predicate NoProviderStartPasses(w: World, d: Db, jobId: string, ticket: Ticket, signature: string) {
    forall q: Prepared | q.jobId == jobId && q.ticket == ticket :: !ProviderReadOk(w, d, q, signature)
  }

  lemma UnreadyNoStart(w: World, d: Db, jobId: string, ticket: Ticket, signature: string)
    requires jobId in d.operationJobs && d.operationJobs[jobId].state != Ready
    ensures NoStartPasses(w, d, jobId, ticket, signature)
  {
  }

  lemma UnauthorizedNoStart(w: World, d: Db, jobId: string, ticket: Ticket, signature: string)
    requires jobId in d.operationJobs && forall ids :: !OperationAuthorized(w, d, d.operationJobs[jobId], ids)
    ensures NoStartPasses(w, d, jobId, ticket, signature)
  {
  }

  lemma OtherTicketNoStart(w: World, d: Db, jobId: string, ticket: Ticket, signature: string)
    requires jobId in d.operationJobs && !OperationTicketOk(w, d, jobId, d.operationJobs[jobId], ticket, signature, true)
    ensures NoStartPasses(w, d, jobId, ticket, signature)
  {
  }

  lemma AuthorizedRows(w: World, d: Db, j: OperationJob, ids: seq<string>)
    requires OperationAuthorized(w, d, j, ids)
    ensures j.changesetId in d.changesets && d.changesets[j.changesetId].targetId in d.targets && j.planId in d.operationPlans
    ensures QuorumIs(w, d, j.changesetId, ids) && forall n | 0 <= n < |ids| :: ids[n] in d.approvals
  {
    QuorumRows(w, d, j.changesetId, ids);
  }

  /** The job is one that `execute_provider_job` starts. */
  predicate Provisions(j: ProviderJob) {
    j.state == Ready && j.operation == "cluster.provision.apply"
  }

  /** The ticket is genuine and describes the job's ChangeSet. */
  predicate ProviderTicketOk(w: World, d: Db, jobId: string, j: ProviderJob, t: Ticket, signature: string) {
    && ProviderAuthorized(d, j) && TicketGenuine(w, t, signature, d.now, true)
    && TicketMatches(w, d, j.changesetId, j.authorization, ProviderPreconditions(d, jobId, j), t)
  }

  lemma UnreadyNoProviderStart(w: World, d: Db, jobId: string, ticket: Ticket, signature: string)
    requires jobId !in d.providerJobs || !Provisions(d.providerJobs[jobId])
    ensures NoProviderStartPasses(w, d, jobId, ticket, signature)
  {
  }

  lemma RefusedNoProviderStart(w: World, d: Db, jobId: string, ticket: Ticket, signature: string)
    requires jobId in d.providerJobs && !ProviderTicketOk(w, d, jobId, d.providerJobs[jobId], ticket, signature)
    ensures NoProviderStartPasses(w, d, jobId, ticket, signature)
  {
  }

  lemma NoQuorumNoProviderStart(w: World, d: Db, jobId: string, ticket: Ticket, signature: string)
    requires jobId in d.providerJobs && d.providerJobs[jobId].changesetId in d.changesets
    requires var c := d.changesets[d.providerJobs[jobId].changesetId];
             c.approvalRequired && |ValidApprovers(w, d, d.providerJobs[jobId].changesetId)| < Required(c)
    ensures NoProviderStartPasses(w, d, jobId, ticket, signature)
  {
    NoQuorum(w, d, d.providerJobs[jobId].changesetId);
  }

  lemma ProviderReadIsOk(w: World, d: Db, p: Prepared, signature: string)
    requires p.kind == Provision && p.jobId in d.providerJobs && Provisions(d.providerJobs[p.jobId])
    requires d.providerJobs[p.jobId].changesetId == p.changesetId && ProviderTicketOk(w, d, p.jobId, d.providerJobs[p.jobId], p.ticket, signature)
    requires QuorumIs(w, d, p.changesetId, p.approvals) && Elems(d.providerJobs[p.jobId].authorization.value.approvalIds) == Elems(p.approvals)
    requires p.readAt == d.now && p.generation == d.generation
    ensures ReadOk(w, d, p, signature)
  {
  }

  lemma QuorumUnique(w: World, d: Db, id: string, a: seq<string>, b: seq<string>)
    requires id in d.changesets && QuorumIs(w, d, id, a) && QuorumIs(w, d, id, b)
    ensures a == b
  {
    if d.changesets[id].approvalRequired {
      PicksUnique(w, d, id, a, b);
    }
  }

  /** Since the choice is determined, a job authorized for other approvals cannot start. */
  lemma OtherApprovalsNoStart(w: World, d: Db, jobId: string, ticket: Ticket, signature: string, ids: seq<string>)
    requires jobId in d.operationJobs && d.operationJobs[jobId].changesetId in d.changesets && d.operationJobs[jobId].authorization.Some?
    requires QuorumIs(w, d, d.operationJobs[jobId].changesetId, ids)
    requires Elems(d.operationJobs[jobId].authorization.value.approvalIds) != Elems(ids)
    ensures NoStartPasses(w, d, jobId, ticket, signature)
  {
    forall q: Prepared | q.jobId == jobId && q.ticket == ticket
      ensures !OperationReadOk(w, d, q, signature)
    {
      if OperationReadOk(w, d, q, signature) {
        QuorumUnique(w, d, q.changesetId, q.approvals, ids);
      }
    }
  }

  lemma OtherApprovalsNoAbandon(w: World, d: Db, jobId: string, ticket: Ticket, signature: string, ids: seq<string>)
    requires jobId in d.operationJobs && d.operationJobs[jobId].changesetId in d.changesets && d.operationJobs[jobId].authorization.Some?
    requires QuorumIs(w, d, d.operationJobs[jobId].changesetId, ids)
    requires Elems(d.operationJobs[jobId].authorization.value.approvalIds) != Elems(ids)
    ensures forall other :: !CanAbandon(w, d, jobId, ticket, signature, other)
  {
    forall other
      ensures !CanAbandon(w, d, jobId, ticket, signature, other)
    {
      if CanAbandon(w, d, jobId, ticket, signature, other) {
        QuorumUnique(w, d, d.operationJobs[jobId].changesetId, other, ids);
      }
    }
  }

  lemma OtherApprovalsNoProviderStart(w: World, d: Db, jobId: string, ticket: Ticket, signature: string, ids: seq<string>)
    requires jobId in d.providerJobs && d.providerJobs[jobId].changesetId in d.changesets && d.providerJobs[jobId].authorization.Some?
    requires QuorumIs(w, d, d.providerJobs[jobId].changesetId, ids)
    requires Elems(d.providerJobs[jobId].authorization.value.approvalIds) != Elems(ids)
    ensures NoProviderStartPasses(w, d, jobId, ticket, signature)
  {
    forall q: Prepared | q.jobId == jobId && q.ticket == ticket
      ensures !ProviderReadOk(w, d, q, signature)
    {
      if ProviderReadOk(w, d, q, signature) {
        QuorumUnique(w, d, q.changesetId, q.approvals, ids);
      }
    }
  }

  lemma NoQuorum(w: World, d: Db, id: string)
    requires id in d.changesets && d.changesets[id].approvalRequired && |ValidApprovers(w, d, id)| < Required(d.changesets[id])
    ensures forall ids :: !QuorumIs(w, d, id, ids)
  {
    forall ids
      ensures !QuorumIs(w, d, id, ids)
    {
      if QuorumIs(w, d, id, ids) {
        QuorumNeedsApprovers(w, d, id, ids);
      }
    }
  }

  lemma QuorumNeedsApprovers(w: World, d: Db, id: string, ids: seq<string>)
    requires id in d.changesets && Picks(w, d, id, ids)
    ensures |ids| <= |ValidApprovers(w, d, id)|
  {
    var names := seq(|ids|, n requires 0 <= n < |ids| => ApproverOf(d, ids[n]));
    assert Distinct(names);
    DistinctCardinality(names);
    forall a | a in Elems(names)
      ensures a in ValidApprovers(w, d, id)
    {
      var n :| 0 <= n < |names| && names[n] == a;
      assert Valid(w, d, id, ids[n]);
    }
    SubsetCardinality(Elems(names), ValidApprovers(w, d, id));
  }

  lemma QuorumRows(w: World, d: Db, id: string, ids: seq<string>)
    requires id in d.changesets && QuorumIs(w, d, id, ids)
    ensures forall n | 0 <= n < |ids| :: ids[n] in d.approvals
    ensures Distinct(ids)
  {
    if d.changesets[id].approvalRequired {
      assert forall n | 0 <= n < |ids| :: Valid(w, d, id, ids[n]);
      forall m, n | 0 <= m < n < |ids|
        ensures ids[m] != ids[n]
      {
        assert ApproverOf(d, ids[m]) != ApproverOf(d, ids[n]);
      }
    }
  }

  /** Straight after its checks, a start can make its writes. */
  lemma PreparedWrites(w: World, d: Db, p: Prepared, signature: string)
    requires p.kind == Operation && OperationReadOk(w, d, p, signature)
    ensures CanWrite(d, p) && Distinct(p.approvals)
  {
    QuorumRows(w, d, p.changesetId, p.approvals);
    PicksAreQuorate(w, d, p);
  }

  /** The row count is the number of approvals exactly if all of them are unspent. */
  lemma RowCountDecides(d: Db, p: Prepared)
    requires Distinct(p.approvals)
    ensures |StillSpendable(d, p.approvals)| == |p.approvals| <==> AllSpendable(d, p.approvals)
  {
    DistinctCardinality(p.approvals);
    AllStillSpendable(d, p.approvals);
  }

  lemma OperationStarts(w: World, d: Db, p: Prepared, e: Db)
    requires p in d.inFlight && CanWrite(d, p) && p.kind == Operation
    requires e == d.(changesets := d.changesets[p.changesetId := d.changesets[p.changesetId].(state := Executing)],
                     approvals := Spend(d, p.approvals), starts := d.starts + [Start(p, d.now, d.generation)],
                     operationJobs := d.operationJobs[p.jobId := d.operationJobs[p.jobId].(state := Running)])
    ensures e == Written(d, p) && Next(w, d, Write(p), e)
  {
  }

  lemma ProvisionStarts(w: World, d: Db, p: Prepared, e: Db)
    requires p in d.inFlight && CanWrite(d, p) && p.kind == Provision
    requires e == d.(changesets := d.changesets[p.changesetId := d.changesets[p.changesetId].(state := Executing)],
                     approvals := Spend(d, p.approvals), starts := d.starts + [Start(p, d.now, d.generation)],
                     providerJobs := d.providerJobs[p.jobId := d.providerJobs[p.jobId].(state := Running)])
    ensures e == Written(d, p) && Next(w, d, Write(p), e)
  {
  }

  lemma ApproveStep(w: World, d: Db, id: string, approvalId: string, approver: string, planHash: string, ttl: int, nonce: string)
    requires CanApprove(d, id, approvalId, approver, planHash)
    ensures Next(w, d, Approve(id, approvalId, approver, planHash, ttl, nonce),
                 WithApproval(d, id, approvalId, NewApproval(w, d, id, approvalId, approver, ttl, nonce)))
  {
  }

  lemma BeginStep(w: World, d: Db, p: Prepared, signature: string)
    requires ReadOk(w, d, p, signature) && CanWrite(d, p)
    ensures Next(w, d, Begin(p, signature), Written(d, p))
  {
    BeginCommits(w, d, p, signature);
  }

  lemma BeginCommits(w: World, d: Db, p: Prepared, signature: string)
    requires CanWrite(d, p)
    ensures Commits(w, d, Begin(p, signature), Written(d, p))
  {
  }

  lemma RequestFields(w: World, d: Db, p: Prepared, signature: string, checked: Db)
    requires Next(w, d, Read(p, signature), checked)
    ensures ReadOk(w, d, p, signature) && checked == d.(inFlight := d.inFlight + {p})
  {
  }

  lemma AuthorizeStep(w: World, d: Db, jobId: string, ids: seq<string>, t: Ticket, e: Db)
    requires CanAuthorize(w, d, jobId, ids) && Movable(d, jobId) && d.operationJobs[jobId].planId in d.operationPlans
    requires forall n | 0 <= n < |ids| :: ids[n] in d.approvals
    requires t == OperationTicket(d, jobId, ids) && e == WithTicket(w, d, jobId, t, ids)
    ensures Next(w, d, Authorize(jobId, ids), e)
  {
  }

  lemma IssuedTicket(w: World, d: Db, jobId: string, ids: seq<string>, t: Ticket, e: Db)
    requires Movable(d, jobId) && d.operationJobs[jobId].planId in d.operationPlans && forall n | 0 <= n < |ids| :: ids[n] in d.approvals
    requires t == OperationTicket(d, jobId, ids) && e == WithTicket(w, d, jobId, t, ids)
    ensures Describes(e, jobId, t) && Lasts(e, jobId, ids, t)
  {
  }

  lemma TicketStep(w: World, d: Db, jobId: string, ids: seq<string>, t: Ticket, e: Db)
    requires CanAuthorize(w, d, jobId, ids) && Movable(d, jobId) && d.operationJobs[jobId].planId in d.operationPlans
    requires forall n | 0 <= n < |ids| :: ids[n] in d.approvals
    requires t == OperationTicket(d, jobId, ids) && e == WithTicket(w, d, jobId, t, ids)
    ensures Next(w, d, Authorize(jobId, ids), e) && Describes(e, jobId, t) && Lasts(e, jobId, ids, t)
  {
    AuthorizeStep(w, d, jobId, ids, t, e);
    IssuedTicket(w, d, jobId, ids, t, e);
  }

  lemma ReadIsOk(w: World, d: Db, p: Prepared, signature: string)
    requires p.kind == Operation && p.jobId in d.operationJobs
    requires var j := d.operationJobs[p.jobId];
             && j.state == Ready && j.changesetId == p.changesetId
             && OperationAuthorized(w, d, j, p.approvals) && OperationTicketOk(w, d, p.jobId, j, p.ticket, signature, true)
             && Elems(j.authorization.value.approvalIds) == Elems(p.approvals)
    requires p.snapshot == d.targets[d.changesets[p.changesetId].targetId] && p.readAt == d.now && p.generation == d.generation
    ensures ReadOk(w, d, p, signature)
  {
  }

  lemma ReadFacts(w: World, d: Db, p: Prepared, signature: string)
    requires OperationReadOk(w, d, p, signature)
    ensures p.jobId in d.operationJobs && d.operationJobs[p.jobId].planId in d.operationPlans && p.changesetId in d.changesets
  {
  }

  lemma WrittenIgnoresRequests(d: Db, checked: Db, p: Prepared)
    requires CanWrite(d, p) && checked == d.(inFlight := checked.inFlight)
    ensures CanWrite(checked, p) && Written(checked, p).(inFlight := d.inFlight) == Written(d, p)
  {
    assert forall n | 0 <= n < |p.approvals| :: Spendable(d, p.approvals[n]) && Spendable(checked, p.approvals[n]);
    assert Spend(checked, p.approvals) == Spend(d, p.approvals);
  }

  /** Straight after its checks a start can make its writes. */
  lemma CheckedRows(w: World, d: Db, p: Prepared, signature: string, checked: Db)
    requires p.kind == Operation && Next(w, d, Read(p, signature), checked)
    ensures p.jobId in checked.operationJobs && checked.operationJobs[p.jobId].planId in checked.operationPlans
    ensures p.changesetId in checked.changesets && Distinct(p.approvals) && CanWrite(checked, p)
  {
    RequestFields(w, d, p, signature, checked);
    ReadFacts(w, d, p, signature);
    PreparedWrites(w, d, p, signature);
    WrittenIgnoresRequests(d, checked, p);
  }

  /** The checks and the writes together are one step. */
  lemma BlockOf(w: World, d: Db, p: Prepared, signature: string, checked: Db, written: Db)
    requires p.kind == Operation && Next(w, d, Read(p, signature), checked) && CanWrite(checked, p) && written == Written(checked, p)
    ensures Next(w, d, Begin(p, signature), written.(inFlight := d.inFlight))
  {
    RequestFields(w, d, p, signature, checked);
    PreparedWrites(w, d, p, signature);
    BeginStep(w, d, p, signature);
    WrittenIgnoresRequests(d, checked, p);
  }

  lemma AbandonStep(w: World, d: Db, jobId: string, t: Ticket, signature: string, ids: seq<string>)
    requires jobId in d.operationJobs
    requires var j := d.operationJobs[jobId];
             && j.state == Ready && OperationAuthorized(w, d, j, ids) && OperationTicketOk(w, d, jobId, j, t, signature, true)
             && Elems(j.authorization.value.approvalIds) == Elems(ids)
    ensures Next(w, d, Abandon(jobId, t, signature, ids), Moved(d, jobId, JobFailed))
  {
  }

  /** In one block, `execute_changeset` finds every approval it selected still unspent. */
  lemma DirectStep(w: World, d: Db, p: Prepared, signature: string)
    requires DirectReadOk(w, d, p)
    ensures CanWrite(d, p) && Next(w, d, Begin(p, signature), Written(d, p))
  {
    PicksAreQuorate(w, d, p);
  }
}
