/**
  The control plane as a transition system: which steps there are, and what every run of them keeps.
 */
module Runs {
  import opened Json
  import opened Wrappers
  import opened Tables
  import opened Handlers
  import opened Ledger
  import Risk

  /**
    The steps. `Environment` stands for everything outside the protocol that rewrites targets, credentials,
    stored plan texts or provider job rows; `Read` and `Write` are the halves of a split job start, `Begin` is
    a start in one block. `Finish` is the unconditional write that ends an execution or a live preview.
   */
  datatype Event =
    | Tick(now: int)
    | Environment
    | Plan(id: string, changeset: Changeset)
    | AddJob(planId: string, plan: OperationPlan, jobId: string, job: OperationJob)
    | Expire(id: string)
    | Show(id: string, shown: Preview)
    | RequestApproval(id: string)
    | Approve(id: string, approvalId: string, approver: string, planHash: string, ttl: int, nonce: string)
    | Reject(id: string)
    | Cancel(id: string)
    | Bump
    | Authorize(jobId: string, ids: seq<string>)
    | Read(request: Prepared, signature: string)
    | Write(request: Prepared)
    | Begin(request: Prepared, signature: string)
    | Finish(id: string, report: Option<Preview>, state: State)
    | FinishJob(jobId: string, succeeded: bool)
    | Move(jobId: string, to: JobState, ticket: Ticket, signature: string)
    | Abandon(jobId: string, ticket: Ticket, signature: string, ids: seq<string>)

  /** Only targets, stored plan texts and provider jobs differ. */
  ghost predicate Rewritten(a: Db, b: Db) {
    && b == a.(targets := b.targets, changesets := b.changesets, operationPlans := b.operationPlans, providerJobs := b.providerJobs)
    && b.changesets.Keys == a.changesets.Keys
    && forall id | id in a.changesets :: b.changesets[id] == a.changesets[id].(plan := b.changesets[id].plan)
  }

  /** A new ChangeSet row as `_insert_changeset` and the planners write it. */
  predicate NewRow(w: World, d: Db, id: string, c: Changeset) {
    && CanPlan(d, id, c.targetId) && Equivalent(Get(c.plan, "target_snapshot"), d.targets[c.targetId])
    && c.planned == c.plan && c.planHash == w.hash(c.plan) && c.generation == d.generation
    && c.risk == Risk.Classify(c.operation) && c.approvalRequired == Risk.ApprovalRequired(c.risk)
    && (c.state == Planned || c.state == Previewed)
  }

  ghost predicate ReadOk(w: World, d: Db, p: Prepared, signature: string) {
    match p.kind
    case Operation => OperationReadOk(w, d, p, signature)
    case Provision => ProviderReadOk(w, d, p, signature)
    case Direct => DirectReadOk(w, d, p)
  }

  /** The checks of a step against hashes, tickets, approvals and targets. */
  ghost predicate Checked(w: World, a: Db, e: Event) {
    match e
    case Authorize(jobId, ids) => CanAuthorize(w, a, jobId, ids)
    case Read(p, signature) => p.kind != Direct && ReadOk(w, a, p, signature)
    case Begin(p, signature) => ReadOk(w, a, p, signature)
    case Move(jobId, to, t, signature) => CanMove(w, a, jobId, to, t, signature)
    case Abandon(jobId, t, signature, ids) => CanAbandon(w, a, jobId, t, signature, ids)
    case _ => true
  }

  /** What a step writes, and the rows and states it needs for that. */
  ghost predicate Commits(w: World, a: Db, e: Event, b: Db) {
    match e
    case Tick(now) => a.now <= now && b == a.(now := now)
    case Environment => Rewritten(a, b)
    case Plan(id, c) => NewRow(w, a, id, c) && b == WithChangeset(a, id, c)
    case AddJob(planId, p, jobId, j) =>
      && planId !in a.operationPlans && jobId !in a.operationJobs
      && j.state == Waiting && j.authorization == None && j.issued == None
      && b == WithOperationJob(a, planId, p, jobId, j)
    case Expire(id) => b == Touch(a, id)
    case Show(id, shown) => CanPreview(a, id) && b == Shown(a, id, shown, Previewed)
    case RequestApproval(id) => CanRequestApproval(a, id) && b == SetState(a, id, AwaitingApproval)
    case Approve(id, approvalId, approver, planHash, ttl, nonce) =>
      && CanApprove(a, id, approvalId, approver, planHash)
      && b == WithApproval(a, id, approvalId, NewApproval(w, a, id, approvalId, approver, ttl, nonce))
    case Reject(id) => CanReject(a, id) && b == Ended(a, id, Rejected)
    case Cancel(id) => CanCancel(a, id) && b == Ended(a, id, Cancelled)
    case Bump => b == Bumped(a)
    case Authorize(jobId, ids) => Authorizes(w, a, jobId, ids, b)
    case Read(p, _) => b == a.(inFlight := a.inFlight + {p})
    case Write(p) => p in a.inFlight && CanWrite(a, p) && b == Written(a, p)
    case Begin(p, _) => CanWrite(a, p) && b == Written(a, p)
    case Finish(id, report, s) =>
      id in a.changesets && EndState(s) && b == WithChangeset(a, id, a.changesets[id].(preview := if report.Some? then report else a.changesets[id].preview, state := s))
    case FinishJob(jobId, succeeded) =>
      jobId in a.operationJobs && a.operationJobs[jobId].changesetId in a.changesets && b == Finished(a, jobId, succeeded)
    case Move(jobId, to, _, _) => Movable(a, jobId) && Rank(a.operationJobs[jobId].state) == 2 && Rank(to) == 2 && b == Moved(a, jobId, to)
    case Abandon(jobId, _, _, _) => Movable(a, jobId) && b == Moved(a, jobId, JobFailed)
  }

  ghost predicate Next(w: World, a: Db, e: Event, b: Db) {
    Commits(w, a, e, b) && Checked(w, a, e)
  }

  predicate Movable(a: Db, jobId: string) {
    jobId in a.operationJobs && a.operationJobs[jobId].changesetId in a.changesets
  }

  /** A job waits, then is ready, then has left for good. */
  function Rank(s: JobState): nat {
    match s
    case Waiting => 0
    case Ready => 1
    case _ => 2
  }

  /** The states an execution or a live preview ends in. */
  predicate EndState(s: State) {
    s == Executed || s == Failed || s == Previewed || s == PolicyDenied || s == PreviewFailed
  }

  ghost predicate Authorizes(w: World, a: Db, jobId: string, ids: seq<string>, b: Db) {
    && Movable(a, jobId) && a.operationJobs[jobId].planId in a.operationPlans && Rank(a.operationJobs[jobId].state) <= 1
    && (forall n | 0 <= n < |ids| :: ids[n] in a.approvals)
    && b == WithTicket(w, a, jobId, OperationTicket(a, jobId, ids), ids)
  }

  // ---- Operation jobs ---------------------------------------------------------------------------

  /** A job's authorization is that of the ticket last issued for it, and that ticket lives 120 seconds at most. */
  predicate JobOk(w: World, d: Db, j: OperationJob) {
    j.authorization.Some? ==>
      && j.issued.Some? && j.authorization.value.ticketHash == w.ticketHash(j.issued.value) && j.issued.value.preconditions.ForOperation?
      && j.issued.value.issuedAt <= d.now && j.issued.value.expiresAt <= j.issued.value.issuedAt + TICKET_SECONDS
  }

  ghost predicate JobsOk(w: World, d: Db) {
    forall j | j in d.operationJobs :: JobOk(w, d, d.operationJobs[j])
  }

  ghost predicate Invariant(w: World, d: Db) {
    Sound(w, d) && JobsOk(w, d)
  }

  // ---- Every step is a ledger step ----------------------------------------------------------------

  predicate Moves(x: Changeset, y: Changeset) {
    SameIdentity(x, y) && (y.state == x.state || StateOk(y))
  }

  /** ChangeSets keep their identity; new ones are as planning writes them. */
  ghost predicate ChangesetsMove(w: World, a: Db, b: Db) {
    && (forall id | id in a.changesets :: id in b.changesets && Moves(a.changesets[id], b.changesets[id]))
    && (forall id | id in b.changesets && id !in a.changesets :: ChangesetOk(w, b.changesets[id], b.generation))
  }

  lemma ChangesetsStay(w: World, a: Db, b: Db, id: string)
    requires RowsOk(w, a) && ChangesetsMove(w, a, b) && a.generation <= b.generation && id in b.changesets
    ensures ChangesetOk(w, b.changesets[id], b.generation)
  {
    if id in a.changesets {
      assert ChangesetOk(w, a.changesets[id], a.generation) && Moves(a.changesets[id], b.changesets[id]);
    }
  }

  lemma GrantStays(w: World, a: Db, b: Db, i: string)
    requires RowsOk(w, a) && ChangesetsMove(w, a, b) && i in a.approvals && i in b.approvals
    requires SameGrant(a.approvals[i], b.approvals[i]) && (b.approvals[i].status == Consumed <==> b.approvals[i].consumedAt.Some?)
    ensures GrantOk(w, b, i)
  {
    assert GrantOk(w, a, i);
    var id := a.approvals[i].changesetId;
    assert Moves(a.changesets[id], b.changesets[id]);
  }

  /** One approval may change its status only from APPROVED. */
  predicate ApprovalMoves(x: Approval, y: Approval) {
    SameGrant(x, y) && (y == x || (x.status == Granted && (y.status == Consumed <==> y.consumedAt.Some?)))
  }

  ghost predicate ApprovalsMove(a: Db, b: Db) {
    b.approvals.Keys == a.approvals.Keys && forall i | i in a.approvals :: ApprovalMoves(a.approvals[i], b.approvals[i])
  }

  /** A step over existing approvals. */
  ghost predicate Proceeds(w: World, a: Db, b: Db) {
    && ChangesetsMove(w, a, b) && ApprovalsMove(a, b) && a.now <= b.now && a.generation <= b.generation && b.inFlight == a.inFlight
  }

  lemma ProceedingKeeps(w: World, a: Db, b: Db)
    requires RowsOk(w, a) && Proceeds(w, a, b)
    ensures Kept(a, b) && RowsOk(w, b)
  {
    forall id | id in b.changesets
      ensures ChangesetOk(w, b.changesets[id], b.generation)
    {
      ChangesetsStay(w, a, b, id);
    }
    forall i | i in b.approvals
      ensures GrantOk(w, b, i)
    {
      assert GrantOk(w, a, i) && ApprovalMoves(a.approvals[i], b.approvals[i]);
      GrantStays(w, a, b, i);
    }
    forall id | id in a.changesets
      ensures id in b.changesets && SameIdentity(a.changesets[id], b.changesets[id])
    {
      assert Moves(a.changesets[id], b.changesets[id]);
    }
    forall i | i in a.approvals
      ensures SameGrant(a.approvals[i], b.approvals[i]) && (a.approvals[i].status != Granted ==> b.approvals[i] == a.approvals[i])
    {
      assert ApprovalMoves(a.approvals[i], b.approvals[i]);
    }
  }

  /** A step that leaves approvals and starts alone. */
  lemma QuietIsLedgerStep(w: World, a: Db, b: Db)
    requires RowsOk(w, a) && ChangesetsMove(w, a, b)
    requires b.approvals == a.approvals && b.starts == a.starts && b.inFlight == a.inFlight && a.now <= b.now && b.generation == a.generation
    ensures LedgerStep(w, a, b)
  {
    assert forall i | i in a.approvals :: ApprovalMoves(a.approvals[i], b.approvals[i]);
    ProceedingKeeps(w, a, b);
    assert NoStart(a, b);
  }

  lemma WithdrawalIsLedgerStep(w: World, a: Db, b: Db, ids: set<string>, reason: State)
    requires RowsOk(w, a) && ChangesetsMove(w, a, b)
    requires b.approvals == Withdraw(a.approvals, ids, reason) && b.starts == a.starts && b.inFlight == a.inFlight
    requires b.now == a.now && a.generation <= b.generation
    ensures LedgerStep(w, a, b)
  {
    forall i | i in a.approvals
      ensures ApprovalMoves(a.approvals[i], b.approvals[i])
    {
      assert GrantOk(w, a, i);
    }
    ProceedingKeeps(w, a, b);
    WithdrawalSpendsNone(a, b, ids, reason);
  }

  lemma WithdrawalSpendsNone(a: Db, b: Db, ids: set<string>, reason: State)
    requires b.approvals == Withdraw(a.approvals, ids, reason) && b.starts == a.starts
    ensures NoStart(a, b)
  {
  }

  lemma ApprovalIsLedgerStep(w: World, a: Db, id: string, approvalId: string, approver: string, planHash: string, ttl: int, nonce: string)
    requires RowsOk(w, a) && CanApprove(a, id, approvalId, approver, planHash)
    ensures LedgerStep(w, a, WithApproval(a, id, approvalId, NewApproval(w, a, id, approvalId, approver, ttl, nonce)))
  {
    var x := NewApproval(w, a, id, approvalId, approver, ttl, nonce);
    var b := WithApproval(a, id, approvalId, x);
    assert ChangesetOk(w, a.changesets[id], a.generation);
    ApprovalAdds(w, a, b, approvalId, x);
  }

  lemma ApprovalAdds(w: World, a: Db, b: Db, approvalId: string, x: Approval)
    requires RowsOk(w, a) && ChangesetsMove(w, a, b) && approvalId !in a.approvals
    requires b.approvals == a.approvals[approvalId := x] && x.status == Granted && GrantOk(w, b, approvalId)
    requires b == a.(changesets := b.changesets, approvals := b.approvals)
    ensures LedgerStep(w, a, b)
  {
    var without := b.(approvals := a.approvals);
    QuietIsLedgerStep(w, a, without);
    AddedRowsOk(w, a, b, approvalId, x);
    AddedKeeps(a, without, b, approvalId, x);
    assert NoStart(a, b);
  }

  lemma AddedRowsOk(w: World, a: Db, b: Db, approvalId: string, x: Approval)
    requires b.approvals == a.approvals[approvalId := x] && GrantOk(w, b, approvalId)
    requires RowsOk(w, b.(approvals := a.approvals)) && approvalId !in a.approvals
    ensures RowsOk(w, b)
  {
    forall i | i in b.approvals
      ensures GrantOk(w, b, i)
    {
      if i != approvalId {
        assert GrantOk(w, b.(approvals := a.approvals), i);
      }
    }
  }

  lemma AddedKeeps(a: Db, without: Db, b: Db, approvalId: string, x: Approval)
    requires Kept(a, without) && without == b.(approvals := a.approvals)
    requires b.approvals == a.approvals[approvalId := x] && approvalId !in a.approvals
    ensures Kept(a, b)
  {
  }

  lemma BegunRows(a: Db, p: Prepared)
    requires p.changesetId in a.changesets
    ensures var b := Begun(a, p);
            && b.approvals == Spend(a, p.approvals) && b.starts == a.starts + [Start(p, a.now, a.generation)]
            && b.inFlight == a.inFlight && b.now == a.now && b.generation == a.generation
            && b.changesets == a.changesets[p.changesetId := a.changesets[p.changesetId].(state := Executing)]
            && b.operationJobs == a.operationJobs && b.providerJobs == a.providerJobs
  {
  }

  lemma WrittenFields(a: Db, p: Prepared)
    requires CanWrite(a, p)
    ensures var b := Written(a, p);
            && b.approvals == Spend(a, p.approvals) && b.starts == a.starts + [Start(p, a.now, a.generation)]
            && b.inFlight == a.inFlight && b.now == a.now && b.generation == a.generation
            && b.changesets == a.changesets[p.changesetId := a.changesets[p.changesetId].(state := Executing)]
  {
    BegunRows(a, p);
  }

  lemma OneMoves(w: World, a: Db, b: Db, id: string)
    requires id in a.changesets && id in b.changesets && b.changesets == a.changesets[id := b.changesets[id]]
    requires Moves(a.changesets[id], b.changesets[id])
    ensures ChangesetsMove(w, a, b)
  {
  }

  lemma WriteIsLedgerStep(w: World, a: Db, p: Prepared)
    requires RowsOk(w, a) && CanWrite(a, p) && Backed(w, a, p)
    ensures LedgerStep(w, a, Written(a, p))
  {
    WrittenFields(a, p);
    OneMoves(w, a, Written(a, p), p.changesetId);
    SpendingIsLedgerStep(w, a, Written(a, p), p);
  }

  lemma SpendingIsLedgerStep(w: World, a: Db, b: Db, p: Prepared)
    requires RowsOk(w, a) && Backed(w, a, p) && AllSpendable(a, p.approvals) && ChangesetsMove(w, a, b)
    requires b.approvals == Spend(a, p.approvals) && b.starts == a.starts + [Start(p, a.now, a.generation)]
    requires b.inFlight == a.inFlight && b.now == a.now && b.generation == a.generation
    ensures LedgerStep(w, a, b)
  {
    forall i | i in a.approvals
      ensures ApprovalMoves(a.approvals[i], b.approvals[i])
    {
      assert GrantOk(w, a, i);
    }
    ProceedingKeeps(w, a, b);
    SpentExactly(a, b, p);
    assert OneStart(w, a, b, Start(p, a.now, a.generation));
  }

  lemma SpentExactly(a: Db, b: Db, p: Prepared)
    requires AllSpendable(a, p.approvals) && b.approvals == Spend(a, p.approvals)
    ensures forall i | i in p.approvals :: i in a.approvals && a.approvals[i].status == Granted && IsSpent(b, i)
    ensures forall i | IsSpent(b, i) :: IsSpent(a, i) || i in p.approvals
  {
    forall i | i in p.approvals
      ensures Spendable(a, i)
    {
      var n :| 0 <= n < |p.approvals| && p.approvals[n] == i;
    }
  }

  // ---- Requests that passed their checks -----------------------------------------------------------

  lemma PicksAreQuorate(w: World, d: Db, p: Prepared)
    requires p.changesetId in d.changesets && QuorumIs(w, d, p.changesetId, p.approvals)
    ensures Quorate(d, p)
    ensures forall n | 0 <= n < |p.approvals| ::
              d.now <= d.approvals[p.approvals[n]].expiresAt && Spendable(d, p.approvals[n])
              && d.approvals[p.approvals[n]].planHash == d.changesets[p.changesetId].planHash
              && d.approvals[p.approvals[n]].generation == d.changesets[p.changesetId].generation
  {
    if d.changesets[p.changesetId].approvalRequired {
      assert forall n | 0 <= n < |p.approvals| :: Valid(w, d, p.changesetId, p.approvals[n]);
      assert forall n, m | 0 <= n < m < |p.approvals| :: ApproverOf(d, p.approvals[n]) != ApproverOf(d, p.approvals[m]);
    }
  }

  /** Only the ticket last issued for a job passes the checks of a start, within its 120 seconds. */
  lemma OnlyLatestTicketStarts(w: World, d: Db, p: Prepared, signature: string)
    requires CollisionFree(w) && JobsOk(w, d) && OperationReadOk(w, d, p, signature)
    ensures d.operationJobs[p.jobId].issued.Some? && SameTicket(d.operationJobs[p.jobId].issued.value, p.ticket)
    ensures p.ticket.issuedAt <= p.readAt <= p.ticket.expiresAt <= p.ticket.issuedAt + TICKET_SECONDS
  {
    assert JobOk(w, d, d.operationJobs[p.jobId]);
    assert SameTicket(d.operationJobs[p.jobId].issued.value, p.ticket);
  }

  /** What a start other than a provider job's found about the stored plan and the target. */
  lemma OperationPlanFacts(w: World, d: Db, p: Prepared, signature: string)
    requires OperationReadOk(w, d, p, signature)
    ensures p.changesetId in d.changesets
    ensures FoundAsPlanned(w, d.changesets[p.changesetId], p)
  {
  }

  lemma DirectPlanFacts(w: World, d: Db, p: Prepared)
    requires DirectReadOk(w, d, p)
    ensures p.changesetId in d.changesets
    ensures FoundAsPlanned(w, d.changesets[p.changesetId], p)
  {
    EquivalentReflexive(p.ticket.plan);
  }

  ghost predicate FoundAsPlanned(w: World, c: Changeset, p: Prepared) {
    w.hash(c.plan) == c.planHash && Equivalent(p.ticket.plan, c.plan) && Equivalent(p.snapshot, Get(c.plan, "target_snapshot"))
  }

  /** The stored plan has the planned hash, so it is the planned one up to key order, and the ticket's too. */
  lemma FoundIsPlanned(w: World, c: Changeset, p: Prepared)
    requires CollisionFree(w) && FoundAsPlanned(w, c, p) && c.planHash == w.hash(c.planned)
    ensures AsPlanned(p, c.planned)
  {
    assert Equivalent(c.plan, c.planned);
    EquivalentTransitive(p.ticket.plan, c.plan, c.planned);
    EquivalentGet(c.plan, c.planned, "target_snapshot");
    EquivalentTransitive(p.snapshot, Get(c.plan, "target_snapshot"), Get(c.planned, "target_snapshot"));
  }

  lemma ReadIsPlanBound(w: World, d: Db, p: Prepared, signature: string)
    requires RowsOk(w, d) && ReadOk(w, d, p, signature) && p.changesetId in d.changesets
    ensures p.kind != Provision && CollisionFree(w) ==> AsPlanned(p, d.changesets[p.changesetId].planned)
  {
    var c := d.changesets[p.changesetId];
    assert ChangesetOk(w, c, d.generation);
    if p.kind == Operation && CollisionFree(w) {
      OperationPlanFacts(w, d, p, signature);
      FoundIsPlanned(w, c, p);
    } else if p.kind == Direct && CollisionFree(w) {
      DirectPlanFacts(w, d, p);
      FoundIsPlanned(w, c, p);
    }
  }

  /** What every start finds, whichever its path. */
  lemma ReadFinds(w: World, d: Db, p: Prepared, signature: string)
    requires ReadOk(w, d, p, signature)
    ensures p.changesetId in d.changesets && QuorumIs(w, d, p.changesetId, p.approvals)
    ensures p.ticket.changesetId == p.changesetId && p.ticket.planHash == d.changesets[p.changesetId].planHash
    ensures p.readAt == d.now && p.generation == d.generation == d.changesets[p.changesetId].generation
  {
  }

  lemma ReadIsBacked(w: World, d: Db, p: Prepared, signature: string)
    requires RowsOk(w, d) && JobsOk(w, d) && ReadOk(w, d, p, signature)
    ensures Backed(w, d, p)
  {
    ReadFinds(w, d, p, signature);
    PicksAreQuorate(w, d, p);
    ReadIsPlanBound(w, d, p, signature);
    if p.kind == Operation && CollisionFree(w) {
      OnlyLatestTicketStarts(w, d, p, signature);
    }
  }

  // ---- Every step keeps the invariant ---------------------------------------------------------------

  lemma StaledMoves(w: World, a: Db, b: Db)
    requires b.changesets == Staled(a.changesets, a.generation + 1)
    ensures ChangesetsMove(w, a, b)
  {
  }

  lemma MovedFields(a: Db, jobId: string, to: JobState)
    requires jobId in a.operationJobs && a.operationJobs[jobId].changesetId in a.changesets
    ensures var b, id := Moved(a, jobId, to), a.operationJobs[jobId].changesetId;
            && b == a.(changesets := b.changesets, operationJobs := b.operationJobs)
            && b.changesets == a.changesets[id := b.changesets[id]] && Moves(a.changesets[id], b.changesets[id])
            && (b.changesets[id].state == a.changesets[id].state || EndState(b.changesets[id].state))
  {
    var id := a.operationJobs[jobId].changesetId;
    assert a.changesets == a.changesets[id := a.changesets[id]];
  }

  lemma FinishedFields(a: Db, jobId: string, succeeded: bool)
    requires jobId in a.operationJobs && a.operationJobs[jobId].changesetId in a.changesets
    ensures var b, id := Finished(a, jobId, succeeded), a.operationJobs[jobId].changesetId;
            && b == a.(changesets := b.changesets, operationJobs := b.operationJobs)
            && b.changesets == a.changesets[id := b.changesets[id]] && Moves(a.changesets[id], b.changesets[id])
            && (b.changesets[id].state == a.changesets[id].state || EndState(b.changesets[id].state))
  {
  }

  lemma JobWritesAreLedgerSteps(w: World, a: Db, e: Event, b: Db)
    requires RowsOk(w, a) && Commits(w, a, e, b)
    requires e.FinishJob? || e.Move? || e.Abandon?
    ensures LedgerStep(w, a, b)
  {
    if e.FinishJob? {
      FinishedFields(a, e.jobId, e.succeeded);
    } else {
      MovedFields(a, e.jobId, if e.Move? then e.to else JobFailed);
    }
    OneMoves(w, a, b, a.operationJobs[e.jobId].changesetId);
    QuietIsLedgerStep(w, a, b);
  }

  lemma RowWritesAreLedgerSteps(w: World, a: Db, e: Event, b: Db)
    requires RowsOk(w, a) && Commits(w, a, e, b)
    requires e.Expire? || e.Show? || e.RequestApproval? || e.Finish?
    ensures LedgerStep(w, a, b)
  {
    if b == a {
      assert ChangesetsMove(w, a, b);
    } else {
      OneMoves(w, a, b, e.id);
    }
    QuietIsLedgerStep(w, a, b);
  }

  lemma CheckIsLedgerStep(w: World, a: Db, p: Prepared, signature: string)
    requires Invariant(w, a) && ReadOk(w, a, p, signature)
    ensures LedgerStep(w, a, a.(inFlight := a.inFlight + {p}))
  {
    ReadIsBacked(w, a, p, signature);
    SameRowsIsLedgerStep(w, a, a);
    ReadIsLedgerStep(w, a, a.(inFlight := a.inFlight + {p}), p);
  }

  lemma BlockIsLedgerStep(w: World, a: Db, p: Prepared, signature: string)
    requires Invariant(w, a) && ReadOk(w, a, p, signature) && CanWrite(a, p)
    ensures LedgerStep(w, a, Written(a, p))
  {
    ReadIsBacked(w, a, p, signature);
    WriteIsLedgerStep(w, a, p);
  }

  lemma StartsAreLedgerSteps(w: World, a: Db, e: Event, b: Db)
    requires Invariant(w, a) && Next(w, a, e, b)
    requires e.Read? || e.Write? || e.Begin?
    ensures LedgerStep(w, a, b)
  {
    if e.Read? {
      CheckIsLedgerStep(w, a, e.request, e.signature);
    } else if e.Begin? {
      BlockIsLedgerStep(w, a, e.request, e.signature);
    } else {
      WriteIsLedgerStep(w, a, e.request);
    }
  }

  lemma ReadIsLedgerStep(w: World, a: Db, b: Db, p: Prepared)
    requires LedgerStep(w, a, b.(inFlight := a.inFlight)) && Backed(w, a, p)
    requires b == a.(inFlight := a.inFlight + {p})
    ensures LedgerStep(w, a, b)
  {
    var c := b.(inFlight := a.inFlight);
    forall i | i in b.approvals
      ensures GrantOk(w, b, i)
    {
      assert GrantOk(w, c, i);
    }
    assert Kept(a, b);
    assert NoStart(a, b);
  }

  lemma UntouchedIsLedgerStep(w: World, a: Db, e: Event, b: Db)
    requires RowsOk(w, a) && Commits(w, a, e, b)
    requires e.Tick? || e.AddJob? || e.Authorize?
    ensures LedgerStep(w, a, b)
  {
    UntouchedRows(w, a, e, b);
    SameRowsIsLedgerStep(w, a, b);
  }

  lemma UntouchedRows(w: World, a: Db, e: Event, b: Db)
    requires Commits(w, a, e, b)
    requires e.Tick? || e.AddJob? || e.Authorize?
    ensures b.changesets == a.changesets && b.approvals == a.approvals && b.starts == a.starts && b.inFlight == a.inFlight
    ensures a.now <= b.now && b.generation == a.generation
  {
  }

  lemma SameRowsIsLedgerStep(w: World, a: Db, b: Db)
    requires RowsOk(w, a) && b.changesets == a.changesets && b.approvals == a.approvals && b.starts == a.starts
    requires b.inFlight == a.inFlight && a.now <= b.now && b.generation == a.generation
    ensures LedgerStep(w, a, b)
  {
    SameRowsMove(w, a, b);
    QuietIsLedgerStep(w, a, b);
  }

  lemma SameRowsMove(w: World, a: Db, b: Db)
    requires b.changesets == a.changesets
    ensures ChangesetsMove(w, a, b)
  {
  }

  lemma PlannedRowsMove(w: World, a: Db, id: string, c: Changeset)
    requires NewRow(w, a, id, c)
    ensures ChangesetsMove(w, a, WithChangeset(a, id, c))
  {
    assert id !in a.changesets && ChangesetOk(w, c, a.generation);
    AddedRowMoves(w, a, id, c);
  }

  lemma AddedRowMoves(w: World, a: Db, id: string, c: Changeset)
    requires id !in a.changesets && ChangesetOk(w, c, a.generation)
    ensures ChangesetsMove(w, a, WithChangeset(a, id, c))
  {
  }

  lemma RewrittenRowsMove(w: World, a: Db, b: Db)
    requires Rewritten(a, b)
    ensures ChangesetsMove(w, a, b)
  {
  }

  lemma PlanIsLedgerStep(w: World, a: Db, e: Event, b: Db)
    requires RowsOk(w, a) && Commits(w, a, e, b) && (e.Plan? || e.Environment?)
    ensures LedgerStep(w, a, b)
  {
    if e.Plan? {
      PlannedRowsMove(w, a, e.id, e.changeset);
    } else {
      RewrittenRowsMove(w, a, b);
    }
    QuietIsLedgerStep(w, a, b);
  }

  lemma DecisionIsLedgerStep(w: World, a: Db, e: Event, b: Db)
    requires RowsOk(w, a) && Commits(w, a, e, b) && (e.Reject? || e.Cancel? || e.Approve?)
    ensures LedgerStep(w, a, b)
  {
    if e.Approve? {
      ApprovalIsLedgerStep(w, a, e.id, e.approvalId, e.approver, e.planHash, e.ttl, e.nonce);
    } else {
      OneMoves(w, a, b, e.id);
      WithdrawalIsLedgerStep(w, a, b, {e.id}, if e.Reject? then Rejected else Cancelled);
    }
  }

  lemma BumpIsLedgerStep(w: World, a: Db)
    requires RowsOk(w, a)
    ensures LedgerStep(w, a, Bumped(a))
  {
    var b := Bumped(a);
    StaledMoves(w, a, b);
    WithdrawalIsLedgerStep(w, a, b, StaleIds(b.changesets), StalePolicy);
  }

  /** Whatever the step, it keeps the books as `LedgerStep` says. */
  lemma StepIsLedgerStep(w: World, a: Db, e: Event, b: Db)
    requires Invariant(w, a) && Next(w, a, e, b)
    ensures LedgerStep(w, a, b)
  {
    if e.Tick? || e.AddJob? || e.Authorize? {
      UntouchedIsLedgerStep(w, a, e, b);
    } else if e.Plan? || e.Environment? {
      PlanIsLedgerStep(w, a, e, b);
    } else if e.Reject? || e.Cancel? || e.Approve? {
      DecisionIsLedgerStep(w, a, e, b);
    } else if e.Bump? {
      BumpIsLedgerStep(w, a);
    } else if e.Expire? || e.Show? || e.RequestApproval? || e.Finish? {
      RowWritesAreLedgerSteps(w, a, e, b);
    } else if e.Read? || e.Write? || e.Begin? {
      StartsAreLedgerSteps(w, a, e, b);
    } else {
      JobWritesAreLedgerSteps(w, a, e, b);
    }
  }

  // ---- How operation jobs move ----------------------------------------------------------------------

  /** A ticket is issued to a job that has not left, and recorded. */
  predicate Ticketed(w: World, now: int, x: OperationJob, y: OperationJob) {
    && Rank(x.state) <= 1 && y.state == Ready && y == x.(state := Ready, authorization := y.authorization, issued := y.issued)
    && y.issued.Some? && y.authorization.Some? && y.authorization.value.ticketHash == w.ticketHash(y.issued.value)
    && y.issued.value.preconditions.ForOperation?
    && y.issued.value.issuedAt == now && y.issued.value.expiresAt <= now + TICKET_SECONDS
  }

  predicate Advances(x: OperationJob, y: OperationJob) {
    y == x.(state := y.state) && Rank(x.state) <= Rank(y.state)
  }

  ghost predicate JobsMove(w: World, a: Db, b: Db) {
    && (forall j | j in a.operationJobs :: j in b.operationJobs
          && (Advances(a.operationJobs[j], b.operationJobs[j]) || Ticketed(w, a.now, a.operationJobs[j], b.operationJobs[j])))
    && (forall j | j in b.operationJobs && j !in a.operationJobs :: b.operationJobs[j].authorization == None && b.operationJobs[j].state == Waiting)
  }

  lemma OneJobMoves(w: World, a: Db, b: Db, j: string)
    requires j in a.operationJobs && j in b.operationJobs && b.operationJobs == a.operationJobs[j := b.operationJobs[j]]
    requires Advances(a.operationJobs[j], b.operationJobs[j]) || Ticketed(w, a.now, a.operationJobs[j], b.operationJobs[j])
    ensures JobsMove(w, a, b)
  {
  }

  lemma MovedJob(a: Db, jobId: string, to: JobState)
    requires jobId in a.operationJobs && a.operationJobs[jobId].changesetId in a.changesets
    ensures Moved(a, jobId, to).operationJobs == a.operationJobs[jobId := a.operationJobs[jobId].(state := to)]
  {
  }

  lemma TicketedByAuthorize(w: World, a: Db, jobId: string, ids: seq<string>, b: Db)
    requires Authorizes(w, a, jobId, ids, b)
    ensures JobsMove(w, a, b)
  {
    var t := OperationTicket(a, jobId, ids);
    assert t.issuedAt == a.now && t.expiresAt <= a.now + TICKET_SECONDS;
    OneJobMoves(w, a, b, jobId);
  }

  lemma WrittenJob(w: World, a: Db, p: Prepared)
    requires CanWrite(a, p)
    ensures Written(a, p).operationJobs ==
            if p.kind == Operation then a.operationJobs[p.jobId := a.operationJobs[p.jobId].(state := Running)] else a.operationJobs
    ensures JobsMove(w, a, Written(a, p))
  {
    if p.kind == Operation {
      OneJobMoves(w, a, Written(a, p), p.jobId);
    }
  }

  predicate LeavesJobs(e: Event) {
    !(e.AddJob? || e.Authorize? || e.Write? || e.Begin? || e.FinishJob? || e.Move? || e.Abandon?)
  }

  lemma JobsUntouched(w: World, a: Db, e: Event, b: Db)
    requires Commits(w, a, e, b) && LeavesJobs(e)
    ensures b.operationJobs == a.operationJobs
  {
  }

  lemma SameJobsMove(w: World, a: Db, b: Db)
    requires b.operationJobs == a.operationJobs
    ensures JobsMove(w, a, b)
  {
  }

  lemma SettledJobMoves(w: World, a: Db, e: Event, b: Db)
    requires Commits(w, a, e, b) && (e.FinishJob? || e.Move? || e.Abandon?)
    ensures JobsMove(w, a, b)
  {
    SettledJob(w, a, e, b);
    OneJobMoves(w, a, b, e.jobId);
  }

  lemma SettledJob(w: World, a: Db, e: Event, b: Db)
    requires Commits(w, a, e, b) && (e.FinishJob? || e.Move? || e.Abandon?)
    ensures e.jobId in a.operationJobs && e.jobId in b.operationJobs
    ensures b.operationJobs == a.operationJobs[e.jobId := b.operationJobs[e.jobId]]
    ensures Advances(a.operationJobs[e.jobId], b.operationJobs[e.jobId])
  {
    if e.Move? {
      MovedJob(a, e.jobId, e.to);
    } else if e.Abandon? {
      MovedJob(a, e.jobId, JobFailed);
    }
  }

  /** No job returns to READY, or to waiting, once it has left. */
  lemma StepMovesJobs(w: World, a: Db, e: Event, b: Db)
    requires Commits(w, a, e, b)
    ensures JobsMove(w, a, b)
  {
    if LeavesJobs(e) {
      JobsUntouched(w, a, e, b);
      SameJobsMove(w, a, b);
    } else if e.Authorize? {
      TicketedByAuthorize(w, a, e.jobId, e.ids, b);
    } else if e.Write? || e.Begin? {
      WrittenJob(w, a, e.request);
    } else if e.AddJob? {
      assert b.operationJobs == a.operationJobs[e.jobId := e.job];
    } else {
      SettledJobMoves(w, a, e, b);
    }
  }

  lemma JobsStay(w: World, a: Db, b: Db)
    requires JobsOk(w, a) && JobsMove(w, a, b) && a.now <= b.now
    ensures JobsOk(w, b)
  {
    forall j | j in b.operationJobs
      ensures JobOk(w, b, b.operationJobs[j])
    {
      if j in a.operationJobs {
        assert JobOk(w, a, a.operationJobs[j]);
        assert Advances(a.operationJobs[j], b.operationJobs[j]) || Ticketed(w, a.now, a.operationJobs[j], b.operationJobs[j]);
      }
    }
  }

  /** Every step keeps the invariant. */
  lemma StepKeepsInvariant(w: World, a: Db, e: Event, b: Db)
    requires Invariant(w, a) && Next(w, a, e, b)
    ensures Invariant(w, b)
  {
    StepIsLedgerStep(w, a, e, b);
    SoundStep(w, a, b);
    StepMovesJobs(w, a, e, b);
    JobsStay(w, a, b);
  }
}
