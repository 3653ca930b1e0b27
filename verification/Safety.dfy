/**
  What holds over whole runs of the control plane, split starts included.
 */
module Safety {
  import opened Ordering
  import opened Json
  import opened Tables
  import opened Handlers
  import opened Ledger
  import opened Runs

  /** A database without rows, under some policy generation. */
  ghost predicate Initial(d: Db) {
    && d.changesets == map[] && d.approvals == map[] && d.operationPlans == map[] && d.operationJobs == map[]
    && d.starts == [] && d.inFlight == {}
  }

  ghost predicate IsRun(w: World, states: seq<Db>, events: seq<Event>) {
    && |states| == |events| + 1 && Initial(states[0])
    && forall k {:trigger StepAt(w, states, events, k)} | 0 <= k < |events| :: StepAt(w, states, events, k)
  }

  ghost predicate StepAt(w: World, states: seq<Db>, events: seq<Event>, k: nat)
    requires |states| == |events| + 1 && k < |events|
  {
    Next(w, states[k], events[k], states[k + 1])
  }

  // ---- The invariant holds throughout, and rows only move forward -----------------------------------

  lemma InitialIsSound(w: World, d: Db)
    requires Initial(d)
    ensures Invariant(w, d)
  {
  }

  lemma {:induction false} RunKeepsInvariant(w: World, states: seq<Db>, events: seq<Event>, k: nat)
    requires IsRun(w, states, events) && k < |states|
    ensures Invariant(w, states[k])
  {
    if k == 0 {
      InitialIsSound(w, states[0]);
    } else {
      RunKeepsInvariant(w, states, events, k - 1);
      RunStepKeepsInvariant(w, states, events, k - 1);
    }
  }

  lemma RunStepKeepsInvariant(w: World, states: seq<Db>, events: seq<Event>, k: nat)
    requires IsRun(w, states, events) && k < |events| && Invariant(w, states[k])
    ensures Invariant(w, states[k + 1])
  {
    assert StepAt(w, states, events, k);
    StepKeepsInvariant(w, states[k], events[k], states[k + 1]);
  }

  lemma StepKeeps(w: World, states: seq<Db>, events: seq<Event>, k: nat)
    requires IsRun(w, states, events) && k < |events|
    ensures Kept(states[k], states[k + 1])
  {
    RunKeepsInvariant(w, states, events, k);
    assert StepAt(w, states, events, k);
    StepIsLedgerStep(w, states[k], events[k], states[k + 1]);
  }

  lemma KeptTransitive(a: Db, b: Db, c: Db)
    requires Kept(a, b) && Kept(b, c)
    ensures Kept(a, c)
  {
    forall id | id in a.changesets
      ensures id in c.changesets && SameIdentity(a.changesets[id], c.changesets[id])
    {
      assert SameIdentity(a.changesets[id], b.changesets[id]) && SameIdentity(b.changesets[id], c.changesets[id]);
    }
    forall i | i in a.approvals
      ensures i in c.approvals && SameGrant(a.approvals[i], c.approvals[i])
    {
      assert SameGrant(a.approvals[i], b.approvals[i]) && SameGrant(b.approvals[i], c.approvals[i]);
    }
  }

  lemma {:induction false} RunKeeps(w: World, states: seq<Db>, events: seq<Event>, i: nat, j: nat)
    requires IsRun(w, states, events) && i <= j < |states|
    ensures Kept(states[i], states[j])
    decreases j
  {
    if i < j {
      RunKeeps(w, states, events, i, j - 1);
      StepKeeps(w, states, events, j - 1);
      KeptTransitive(states[i], states[j - 1], states[j]);
    }
  }

  /** Once an approval is consumed, rejected, cancelled or stale, its row never changes again. */
  lemma SettledApprovalsStay(w: World, states: seq<Db>, events: seq<Event>, i: nat, j: nat, approval: string)
    requires IsRun(w, states, events) && i <= j < |states|
    requires approval in states[i].approvals && states[i].approvals[approval].status != Granted
    ensures approval in states[j].approvals && states[j].approvals[approval] == states[i].approvals[approval]
  {
    RunKeeps(w, states, events, i, j);
  }

  // ---- Accounting -----------------------------------------------------------------------------------

  /** In every run, the consumed approvals of a ChangeSet are its quorum times its starts. */
  lemma ApprovalsAreAccountedFor(w: World, states: seq<Db>, events: seq<Event>, k: nat, id: string)
    requires IsRun(w, states, events) && k < |states| && id in states[k].changesets
    ensures |SpentOn(states[k], id)| == Quorum(states[k].changesets[id]) * StartsOf(states[k].starts, id)
  {
    RunKeepsInvariant(w, states, events, k);
    ConsumedPerStart(w, states[k], id);
  }

  /** In every run, no approval is consumed by two starts. */
  lemma NoApprovalSpentTwice(w: World, states: seq<Db>, events: seq<Event>, k: nat, m: nat, n: nat)
    requires IsRun(w, states, events) && k < |states| && m < n < |states[k].starts|
    ensures Elems(states[k].starts[m].request.approvals) !! Elems(states[k].starts[n].request.approvals)
  {
    RunKeepsInvariant(w, states, events, k);
    assert Disjoint(states[k].starts[m], states[k].starts[n]);
  }

  /** The approvals of a start: consumed, in date when it was checked, of its ChangeSet's plan, not by the requester. */
  ghost predicate ApprovedBy(d: Db, p: Prepared, i: string) {
    && i in d.approvals && p.changesetId in d.changesets
    && var a, c := d.approvals[i], d.changesets[p.changesetId];
       && a.changesetId == p.changesetId && a.status == Consumed && a.planHash == c.planHash == p.ticket.planHash
       && a.approver != c.requestedBy && a.generation == c.generation
       && p.readAt <= a.expiresAt && (c.expiresAt != 0 ==> a.expiresAt <= c.expiresAt)
  }

  lemma SpentForStart(w: World, d: Db, p: Prepared, i: string)
    requires RowsOk(w, d) && Backed(w, d, p) && i in p.approvals && IsSpent(d, i)
    ensures ApprovedBy(d, p, i)
  {
    assert GrantOk(w, d, i);
    var n :| 0 <= n < |p.approvals| && p.approvals[n] == i;
  }

  lemma ApproversDiffer(d: Db, p: Prepared, i: string, j: string)
    requires Quorate(d, p) && i in p.approvals && j in p.approvals && i != j
    ensures d.approvals[i].approver != d.approvals[j].approver
  {
    var x :| 0 <= x < |p.approvals| && p.approvals[x] == i;
    var y :| 0 <= y < |p.approvals| && p.approvals[y] == j;
    if x < y {
      assert d.approvals[p.approvals[x]].approver != d.approvals[p.approvals[y]].approver;
    } else {
      assert d.approvals[p.approvals[y]].approver != d.approvals[p.approvals[x]].approver;
    }
  }

  /**
    Every start consumed approvals of the required number of different approvers, none of them the requester,
    each for the plan hash its ticket carries and in date when the start was checked. A start of an operation
    job was checked within 120 seconds of the ticket's issue.
   */
  lemma EveryStartWasApproved(w: World, states: seq<Db>, events: seq<Event>, k: nat, n: nat)
    requires IsRun(w, states, events) && k < |states| && n < |states[k].starts|
    ensures var d, p := states[k], states[k].starts[n].request;
            && p.changesetId in d.changesets && |Elems(p.approvals)| == Quorum(d.changesets[p.changesetId])
            && (forall i | i in p.approvals :: ApprovedBy(d, p, i))
            && (forall i, j | i in p.approvals && j in p.approvals && i != j :: d.approvals[i].approver != d.approvals[j].approver)
            && (CollisionFree(w) && p.kind == Operation ==> p.ticket.issuedAt <= p.readAt <= p.ticket.issuedAt + TICKET_SECONDS)
  {
    RunKeepsInvariant(w, states, events, k);
    var d, p := states[k], states[k].starts[n].request;
    assert Backed(w, d, p);
    QuorateDistinct(d, p);
    forall i | i in p.approvals
      ensures ApprovedBy(d, p, i)
    {
      assert IsSpent(d, i);
      SpentForStart(w, d, p, i);
    }
    forall i, j | i in p.approvals && j in p.approvals && i != j
      ensures d.approvals[i].approver != d.approvals[j].approver
    {
      ApproversDiffer(d, p, i, j);
    }
  }

  /**
    An operation job or ChangeSet execution starts exactly the plan that was hashed when it was planned, on a
    target whose snapshot is the planned one, whatever rewrote targets or stored plan texts in between.
   */
  lemma StartsCarryThePlannedPlan(w: World, states: seq<Db>, events: seq<Event>, k: nat, n: nat)
    requires IsRun(w, states, events) && k < |states| && n < |states[k].starts| && CollisionFree(w)
    requires states[k].starts[n].request.kind != Provision
    ensures var p := states[k].starts[n].request;
            && p.changesetId in states[k].changesets
            && var c := states[k].changesets[p.changesetId];
               && Equivalent(p.ticket.plan, c.planned) && w.hash(p.ticket.plan) == p.ticket.planHash == w.hash(c.planned)
               && Equivalent(p.snapshot, Get(c.planned, "target_snapshot"))
  {
    RunKeepsInvariant(w, states, events, k);
    var p := states[k].starts[n].request;
    assert Backed(w, states[k], p);
    assert ChangesetOk(w, states[k].changesets[p.changesetId], states[k].generation);
  }

  // ---- Decisions between the checks and the writes of a start -----------------------------------------

  lemma WithdrawnAfterDecision(a: Db, id: string, s: State, i: string)
    requires id in a.changesets && i in a.approvals && a.approvals[i].changesetId == id
    ensures i in Ended(a, id, s).approvals && Ended(a, id, s).approvals[i].status != Granted
  {
  }

  lemma StepKeepsJob(w: World, states: seq<Db>, events: seq<Event>, k: nat, jobId: string)
    requires IsRun(w, states, events) && k < |events| && jobId in states[k].operationJobs
    ensures jobId in states[k + 1].operationJobs
    ensures Rank(states[k].operationJobs[jobId].state) <= Rank(states[k + 1].operationJobs[jobId].state)
  {
    assert StepAt(w, states, events, k);
    StepMovesJobs(w, states[k], events[k], states[k + 1]);
    JobAdvances(w, states[k], states[k + 1], jobId);
  }

  lemma JobAdvances(w: World, a: Db, b: Db, jobId: string)
    requires JobsMove(w, a, b) && jobId in a.operationJobs
    ensures jobId in b.operationJobs && Rank(a.operationJobs[jobId].state) <= Rank(b.operationJobs[jobId].state)
  {
  }

  lemma {:induction false} RunKeepsJobs(w: World, states: seq<Db>, events: seq<Event>, i: nat, j: nat, jobId: string)
    requires IsRun(w, states, events) && i <= j < |states| && jobId in states[i].operationJobs
    ensures jobId in states[j].operationJobs
    ensures Rank(states[i].operationJobs[jobId].state) <= Rank(states[j].operationJobs[jobId].state)
    decreases j
  {
    if i < j {
      RunKeepsJobs(w, states, events, i, j - 1, jobId);
      StepKeepsJob(w, states, events, j - 1, jobId);
    }
  }

  /** After a decision on its ChangeSet, an approval that existed before it is never spendable again. */
  lemma DecisionSettles(w: World, states: seq<Db>, events: seq<Event>, i: nat, j: nat, k: nat, id: string, x: string)
    requires IsRun(w, states, events) && i <= j < k < |states|
    requires events[j] == Reject(id) || events[j] == Cancel(id)
    requires x in states[i].approvals && states[i].approvals[x].changesetId == id
    ensures !Spendable(states[k], x)
  {
    RunKeeps(w, states, events, i, j);
    assert SameGrant(states[i].approvals[x], states[j].approvals[x]);
    assert StepAt(w, states, events, j);
    WithdrawnAfterDecision(states[j], id, if events[j].Reject? then Rejected else Cancelled, x);
    SettledApprovalsStay(w, states, events, j + 1, k, x);
  }

  /** What a checked start finds later: its ChangeSet and its job. */
  lemma RequestStays(w: World, states: seq<Db>, events: seq<Event>, i: nat, k: nat, p: Prepared, signature: string)
    requires IsRun(w, states, events) && i < k < |states| && events[i] == Read(p, signature)
    ensures p.changesetId in states[i].changesets && p.changesetId in states[k].changesets
    ensures p.kind == Operation ==> p.jobId in states[k].operationJobs
    ensures Quorate(states[i], p)
  {
    RunKeepsInvariant(w, states, events, i);
    assert StepAt(w, states, events, i);
    ReadIsBacked(w, states[i], p, signature);
    RunKeeps(w, states, events, i, k);
    if p.kind == Operation {
      RunKeepsJobs(w, states, events, i, k, p.jobId);
    }
  }

  /**
    A rejection or cancellation that commits between the checks of a job start and its writes makes the start
    abort if the ChangeSet needs approval. One that needs none starts all the same.
   */
  lemma DecisionAbortsStart(w: World, states: seq<Db>, events: seq<Event>, i: nat, j: nat, k: nat, p: Prepared, signature: string)
    requires IsRun(w, states, events) && i < j < k < |states|
    requires events[i] == Read(p, signature)
    requires events[j] == Reject(p.changesetId) || events[j] == Cancel(p.changesetId)
    ensures p.changesetId in states[i].changesets
    ensures states[i].changesets[p.changesetId].approvalRequired ==> !CanWrite(states[k], p)
    ensures p.kind == Operation && !states[i].changesets[p.changesetId].approvalRequired ==> CanWrite(states[k], p)
  {
    RequestStays(w, states, events, i, k, p, signature);
    if states[i].changesets[p.changesetId].approvalRequired {
      DecisionSettles(w, states, events, i, j, k, p.changesetId, p.approvals[0]);
    }
  }

  /** A job passes from READY to RUNNING at most once in any run: having left, it is never READY again. */
  lemma JobLeavesReadyOnce(w: World, states: seq<Db>, events: seq<Event>, i: nat, j: nat, jobId: string)
    requires IsRun(w, states, events) && i < j < |states| && jobId in states[i].operationJobs
    requires states[i].operationJobs[jobId].state == Ready
    requires jobId in states[i + 1].operationJobs && states[i + 1].operationJobs[jobId].state != Ready
    ensures jobId in states[j].operationJobs && states[j].operationJobs[jobId].state != Ready && states[j].operationJobs[jobId].state != Waiting
  {
    RunKeepsJobs(w, states, events, i, i + 1, jobId);
    RunKeepsJobs(w, states, events, i + 1, j, jobId);
  }
}
