/**
  What a step does to one row, said in terms of the rows alone: the state of a ChangeSet, of an approval and of an
  operation job after every step (main.py:225-239, 874-887, 2196-2201, 2357-2623, 4564-4790; db.py:661-675).
 */
module Steps {
  import opened Wrappers
  import opened Tables
  import opened Handlers
  import opened Runs
  import opened StartChecks

  // ---- ChangeSets ---------------------------------------------------------------------------------------

  /** The states that can still expire, be rejected or be cancelled. */
  predicate Open(s: State) {
    s == Planned || s == Previewed || s == AwaitingApproval || s == Approved || s == Executing
  }

  /** From the row `c` the request step leads to the state `s`: whether it may be taken at all, and where it leads. */
  predicate RequestLeads(a: Db, e: Event, c: Changeset, s: State)
    requires e.Expire? || e.Show? || e.RequestApproval? || e.Approve? || e.Reject? || e.Cancel? || e.Finish?
  {
    match e
    case Expire(_) => s == if c.expiresAt != 0 && c.expiresAt < a.now && Open(c.state) then Expired else c.state
    case Show(_, _) => c.generation == a.generation && (c.state == Planned || c.state == Previewed) && s == Previewed
    case RequestApproval(_) => c.generation == a.generation && c.state == Previewed && c.approvalRequired && s == AwaitingApproval
    case Approve(_, _, _, _, _, _) => c.generation == a.generation && c.state == AwaitingApproval && (s == AwaitingApproval || s == Approved)
    case Reject(_) => c.generation == a.generation && Open(c.state) && s == Rejected
    case Cancel(_) => Open(c.state) && s == Cancelled
    case Finish(_, _, end) => s == end && (s == Executed || s == Failed || s == Previewed || s == PolicyDenied || s == PreviewFailed)
  }

  /** The same of the steps of a job, seen from its ChangeSet. */
  predicate JobLeads(e: Event, c: Changeset, s: State)
    requires e.FinishJob? || e.Move? || e.Abandon?
  {
    match e
    case FinishJob(_, succeeded) => s == if succeeded then Executed else Failed
    case Move(_, to, _, _) => c.state == Executing && s == if to == Succeeded then Executed else if to == JobFailed then Failed else Executing
    case Abandon(_, _, _, _) => c.state == (if c.approvalRequired then Approved else Previewed) && s == Failed
  }

  /** Where a step leads from a ChangeSet's row. */
  predicate Leads(a: Db, e: Event, id: string, s: State)
    requires id in a.changesets
  {
    var c := a.changesets[id];
    if e.Expire? || e.Show? || e.RequestApproval? || e.Approve? || e.Reject? || e.Cancel? || e.Finish? then
      if e.id == id then RequestLeads(a, e, c, s) else s == c.state
    else if e.FinishJob? || e.Move? || e.Abandon? then
      e.jobId in a.operationJobs && if a.operationJobs[e.jobId].changesetId == id then JobLeads(e, c, s) else s == c.state
    else if e.Write? || e.Begin? then s == if e.request.changesetId == id then Executing else c.state
    else if e.Bump? then
      s == if c.generation != a.generation + 1 && (c.state == Planned || c.state == Previewed || c.state == AwaitingApproval || c.state == Approved)
           then StalePolicy else c.state
    else s == c.state
  }

  lemma LookLeads(a: Db, x: string, id: string)
    requires id in a.changesets
    ensures id in Touch(a, x).changesets && Leads(a, Expire(x), id, Touch(a, x).changesets[id].state)
  {
  }

  lemma ShowStep(w: World, a: Db, e: Event, b: Db, id: string)
    requires Commits(w, a, e, b) && id in a.changesets
    requires e.Show? || e.RequestApproval?
    ensures id in b.changesets && Leads(a, e, id, b.changesets[id].state)
  {
  }

  lemma DecisionStep(w: World, a: Db, e: Event, b: Db, id: string)
    requires Commits(w, a, e, b) && id in a.changesets
    requires e.Approve? || e.Reject? || e.Cancel? || e.Finish?
    ensures id in b.changesets && Leads(a, e, id, b.changesets[id].state)
  {
  }

  lemma MoveLeads(w: World, a: Db, jobId: string, to: JobState, t: Ticket, signature: string, id: string)
    requires CanMove(w, a, jobId, to, t, signature) && id in a.changesets
    ensures Movable(a, jobId) && Leads(a, Move(jobId, to, t, signature), id, Moved(a, jobId, to).changesets[id].state)
  {
  }

  lemma AbandonLeads(w: World, a: Db, jobId: string, t: Ticket, signature: string, ids: seq<string>, id: string)
    requires CanAbandon(w, a, jobId, t, signature, ids) && id in a.changesets
    ensures Movable(a, jobId) && Leads(a, Abandon(jobId, t, signature, ids), id, Moved(a, jobId, JobFailed).changesets[id].state)
  {
  }

  lemma JobStep(w: World, a: Db, e: Event, b: Db, id: string)
    requires Next(w, a, e, b) && id in a.changesets
    requires e.FinishJob? || e.Move? || e.Abandon?
    ensures id in b.changesets && Leads(a, e, id, b.changesets[id].state)
  {
    if e.Move? {
      MoveLeads(w, a, e.jobId, e.to, e.ticket, e.signature, id);
    } else if e.Abandon? {
      AbandonLeads(w, a, e.jobId, e.ticket, e.signature, e.ids, id);
    }
  }

  /** Every step leads a ChangeSet where its row and the table above say, and is taken only from the rows they allow. */
  lemma ChangesetSteps(w: World, a: Db, e: Event, b: Db, id: string)
    requires Next(w, a, e, b) && id in a.changesets
    ensures id in b.changesets && Leads(a, e, id, b.changesets[id].state)
  {
    if e.Expire? {
      LookLeads(a, e.id, id);
    } else if e.Show? || e.RequestApproval? {
      ShowStep(w, a, e, b, id);
    } else if e.Approve? || e.Reject? || e.Cancel? || e.Finish? {
      DecisionStep(w, a, e, b, id);
    } else if e.FinishJob? || e.Move? || e.Abandon? {
      JobStep(w, a, e, b, id);
    } else if e.Write? || e.Begin? {
      WrittenFields(a, e.request);
    }
  }

  // ---- Approvals ------------------------------------------------------------------------------------------

  /** What a step makes of an approval: only a granted one changes, by a start that took it or a decision on its ChangeSet. */
  predicate Becomes(a: Db, e: Event, x: Approval, i: string, y: Approval) {
    if x.status != Granted then y == x
    else if e.Write? || e.Begin? then
      y == if i in e.request.approvals && x.consumedAt == None then x.(status := Consumed, consumedAt := Some(a.now)) else x
    else if e.Reject? then y == if x.changesetId == e.id then x.(status := Withdrawn(Rejected)) else x
    else if e.Cancel? then y == if x.changesetId == e.id then x.(status := Withdrawn(Cancelled)) else x
    else if e.Bump? then
      && x.changesetId in a.changesets
      && var c := a.changesets[x.changesetId];
         y == if c.state == StalePolicy
                 || (c.generation != a.generation + 1 && (c.state == Planned || c.state == Previewed || c.state == AwaitingApproval || c.state == Approved))
              then x.(status := Withdrawn(StalePolicy)) else x
    else y == x
  }

  lemma SpentRow(a: Db, p: Prepared, i: string)
    requires CanWrite(a, p) && i in a.approvals
    ensures i in Written(a, p).approvals
    ensures var x := a.approvals[i];
            Written(a, p).approvals[i] == if i in p.approvals && x.status == Granted && x.consumedAt == None
                                          then x.(status := Consumed, consumedAt := Some(a.now)) else x
  {
    WrittenFields(a, p);
  }

  lemma EndedRow(a: Db, id: string, s: State, i: string)
    requires id in a.changesets && i in a.approvals
    ensures i in Ended(a, id, s).approvals
    ensures var x := a.approvals[i];
            Ended(a, id, s).approvals[i] == if x.changesetId == id && x.status == Granted then x.(status := Withdrawn(s)) else x
  {
  }

  lemma BumpedRow(a: Db, i: string)
    requires i in a.approvals && a.approvals[i].changesetId in a.changesets
    ensures i in Bumped(a).approvals && Becomes(a, Bump, a.approvals[i], i, Bumped(a).approvals[i])
  {
    var id := a.approvals[i].changesetId;
    assert id in Staled(a.changesets, a.generation + 1);
  }

  lemma OtherApprovalsStay(w: World, a: Db, e: Event, b: Db, i: string)
    requires Commits(w, a, e, b) && i in a.approvals
    requires !(e.Write? || e.Begin? || e.Reject? || e.Cancel? || e.Bump?)
    ensures i in b.approvals && b.approvals[i] == a.approvals[i]
  {
    if e.Move? || e.Abandon? {
      MovedFields(a, e.jobId, if e.Move? then e.to else JobFailed);
    } else if e.FinishJob? {
      FinishedFields(a, e.jobId, e.succeeded);
    }
  }

  /** Every step makes of an approval what is said above. */
  lemma ApprovalSteps(w: World, a: Db, e: Event, b: Db, i: string)
    requires Commits(w, a, e, b) && i in a.approvals && a.approvals[i].changesetId in a.changesets
    ensures i in b.approvals && Becomes(a, e, a.approvals[i], i, b.approvals[i])
  {
    if e.Write? || e.Begin? {
      SpentRow(a, e.request, i);
    } else if e.Reject? || e.Cancel? {
      EndedRow(a, e.id, if e.Reject? then Rejected else Cancelled, i);
    } else if e.Bump? {
      BumpedRow(a, i);
    } else {
      OtherApprovalsStay(w, a, e, b, i);
    }
  }

  // ---- Operation jobs -----------------------------------------------------------------------------------

  /** What may follow what, and by which step. */
  predicate Follows(e: Event, jobId: string, x: JobState, y: JobState) {
    match e
    case Authorize(id, _) => if id == jobId then (x == Waiting || x == Ready) && y == Ready else y == x
    case Write(p) => y == if p.kind == Operation && p.jobId == jobId then Running else x
    case Begin(p, _) => y == if p.kind == Operation && p.jobId == jobId then Running else x
    case FinishJob(id, succeeded) => y == if id == jobId then (if succeeded then Succeeded else JobFailed) else x
    case Move(id, to, _, _) =>
      if id == jobId then y == to && MayFollow(x, y) else y == x
    case Abandon(id, _, _, _) => if id == jobId then x == Ready && y == JobFailed else y == x
    case _ => y == x
  }

  lemma AuthorizedJob(w: World, a: Db, id: string, ids: seq<string>, b: Db, jobId: string)
    requires Authorizes(w, a, id, ids, b) && CanAuthorize(w, a, id, ids) && jobId in a.operationJobs
    ensures jobId in b.operationJobs && Follows(Authorize(id, ids), jobId, a.operationJobs[jobId].state, b.operationJobs[jobId].state)
  {
  }

  lemma MoveIsAllowed(w: World, a: Db, id: string, to: JobState, t: Ticket, signature: string)
    requires CanMove(w, a, id, to, t, signature)
    ensures id in a.operationJobs && MayFollow(a.operationJobs[id].state, to)
  {
  }

  lemma MovedJobFollows(w: World, a: Db, id: string, to: JobState, t: Ticket, signature: string, jobId: string)
    requires CanMove(w, a, id, to, t, signature) && Movable(a, id) && jobId in a.operationJobs
    ensures jobId in Moved(a, id, to).operationJobs
    ensures Follows(Move(id, to, t, signature), jobId, a.operationJobs[jobId].state, Moved(a, id, to).operationJobs[jobId].state)
  {
    MoveIsAllowed(w, a, id, to, t, signature);
    MovedJob(a, id, to);
  }

  lemma AbandonedJobFollows(w: World, a: Db, id: string, t: Ticket, signature: string, ids: seq<string>, jobId: string)
    requires CanAbandon(w, a, id, t, signature, ids) && Movable(a, id) && jobId in a.operationJobs
    ensures jobId in Moved(a, id, JobFailed).operationJobs
    ensures Follows(Abandon(id, t, signature, ids), jobId, a.operationJobs[jobId].state, Moved(a, id, JobFailed).operationJobs[jobId].state)
  {
    MovedJob(a, id, JobFailed);
  }

  lemma SettledFollows(w: World, a: Db, e: Event, b: Db, jobId: string)
    requires Next(w, a, e, b) && jobId in a.operationJobs && (e.FinishJob? || e.Move? || e.Abandon?)
    ensures jobId in b.operationJobs && Follows(e, jobId, a.operationJobs[jobId].state, b.operationJobs[jobId].state)
  {
    if e.Move? {
      MovedJobFollows(w, a, e.jobId, e.to, e.ticket, e.signature, jobId);
    } else if e.Abandon? {
      AbandonedJobFollows(w, a, e.jobId, e.ticket, e.signature, e.ids, jobId);
    }
  }

  /** An operation job moves as the table above says, and only by these steps. */
  lemma JobSteps(w: World, a: Db, e: Event, b: Db, jobId: string)
    requires Next(w, a, e, b) && jobId in a.operationJobs
    ensures jobId in b.operationJobs && Follows(e, jobId, a.operationJobs[jobId].state, b.operationJobs[jobId].state)
  {
    if LeavesJobs(e) {
      JobsUntouched(w, a, e, b);
    } else if e.Authorize? {
      AuthorizedJob(w, a, e.jobId, e.ids, b, jobId);
    } else if e.Write? || e.Begin? {
      WrittenJob(w, a, e.request);
    } else if !e.AddJob? {
      SettledFollows(w, a, e, b, jobId);
    }
  }
}
