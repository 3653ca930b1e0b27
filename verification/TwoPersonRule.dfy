/**
  How many people stand behind an approval and behind a start, by the operation that was planned
  (risk.py:7-37; main.py:2429-2440, 3906-3920).
 */
module TwoPersonRule {
  import opened Ordering
  import opened Tables
  import opened Handlers
  import opened Ledger
  import opened Runs
  import opened Safety
  import opened Policy
  import Contracts
  import Risk

  lemma TwoDiffer(s: set<string>)
    ensures |s| >= 2 <==> exists x, y :: x in s && y in s && x != y
  {
    if x, y :| x in s && y in s && x != y {
      SubsetCardinality({x, y}, s);
    }
    if |s| >= 2 {
      var x :| x in s;
      assert |s - {x}| == |s| - 1;
      var y :| y in s - {x};
      assert x in s && y in s && x != y;
    }
  }

  /** Two live approvals of the ChangeSet, by different people. */
  ghost predicate TwoApprove(d: Db, id: string)
    requires id in d.changesets
  {
    exists i, j :: Counts(d, id, i) && Counts(d, id, j) && d.approvals[i].approver != d.approvals[j].approver
  }

  lemma TwoApproversIff(d: Db, id: string)
    requires id in d.changesets
    ensures |Approvers(d, id)| >= 2 <==> TwoApprove(d, id)
    ensures |Approvers(d, id)| >= 1 <==> exists i :: Counts(d, id, i)
  {
    TwoDiffer(Approvers(d, id));
    if x, y :| x in Approvers(d, id) && y in Approvers(d, id) && x != y {
      var i :| i in d.approvals && Counts(d, id, i) && d.approvals[i].approver == x;
      var j :| j in d.approvals && Counts(d, id, j) && d.approvals[j].approver == y;
    }
    if i, j :| Counts(d, id, i) && Counts(d, id, j) && d.approvals[i].approver != d.approvals[j].approver {
      assert d.approvals[i].approver in Approvers(d, id) && d.approvals[j].approver in Approvers(d, id);
    }
    if i :| Counts(d, id, i) {
      assert d.approvals[i].approver in Approvers(d, id);
    }
    if Approvers(d, id) != {} {
      var x :| x in Approvers(d, id);
    }
  }

  lemma ApprovedRow(w: World, a: Db, e: Event, b: Db)
    requires Commits(w, a, e, b) && e.Approve?
    ensures e.id in b.changesets && b.changesets[e.id].risk == a.changesets[e.id].risk
    ensures b.changesets[e.id].state == if |Approvers(b, e.id)| >= Required(b.changesets[e.id]) then Approved else AwaitingApproval
  {
    var x := NewApproval(w, a, e.id, e.approvalId, e.approver, e.ttl, e.nonce);
    var added := a.(approvals := a.approvals[e.approvalId := x]);
    assert forall i :: Counts(b, e.id, i) <==> Counts(added, e.id, i);
    assert Approvers(b, e.id) == Approvers(added, e.id);
  }

  /** An approval makes a ChangeSet APPROVED exactly if live approvals of two people stand behind a CRITICAL one, of one behind any other. */
  lemma ApprovedTakes(w: World, a: Db, e: Event, b: Db)
    requires Commits(w, a, e, b) && e.Approve?
    ensures e.id in b.changesets
    ensures b.changesets[e.id].state == Approved <==>
            if b.changesets[e.id].risk == Risk.Critical then TwoApprove(b, e.id) else exists i :: Counts(b, e.id, i)
  {
    ApprovedRow(w, a, e, b);
    TwoApproversIff(b, e.id);
  }

  /** What is recorded of a start: the operation that was planned and the risk it was planned under. */
  lemma StartedRow(w: World, states: seq<Db>, events: seq<Event>, k: nat, n: nat)
    requires IsRun(w, states, events) && k < |states| && n < |states[k].starts|
    ensures var d, p := states[k], states[k].starts[n].request;
            && p.changesetId in d.changesets
            && var c := d.changesets[p.changesetId];
               c.risk == Risk.Classify(c.operation) && c.approvalRequired == Risk.ApprovalRequired(c.risk)
  {
    EveryStartWasApproved(w, states, events, k, n);
    var m := PlannedBefore(w, states, events, k, states[k].starts[n].request.changesetId);
    RowOfPlan(w, states, events, m);
  }

  /**
    In every run a start of a two-person operation consumed the approvals of two different people, neither of whom
    requested it; a start of any other contract operation consumed one.
   */
  lemma TwoPeopleApproved(w: World, states: seq<Db>, events: seq<Event>, k: nat, n: nat, operation: string)
    requires IsRun(w, states, events) && k < |states| && n < |states[k].starts| && Contracts.ContractOperation(operation)
    requires var id := states[k].starts[n].request.changesetId;
             id in states[k].changesets && states[k].changesets[id].operation == Risk.PlannedOperation(operation)
    ensures var d, p := states[k], states[k].starts[n].request;
            && |Elems(p.approvals)| == (if operation in Contracts.TWO_PERSON_OPERATIONS then 2 else 1)
            && (forall i | i in p.approvals :: ApprovedBy(d, p, i))
            && (operation in Contracts.TWO_PERSON_OPERATIONS ==> exists i, j :: ApprovedByTwo(d, p, i, j))
  {
    StartedRow(w, states, events, k, n);
    EveryStartWasApproved(w, states, events, k, n);
    Contracts.ContractRisk(operation);
    var d, p := states[k], states[k].starts[n].request;
    if operation in Contracts.TWO_PERSON_OPERATIONS {
      TwoDiffer(Elems(p.approvals));
      var i, j :| i in Elems(p.approvals) && j in Elems(p.approvals) && i != j;
      assert ApprovedByTwo(d, p, i, j);
    }
  }

  ghost predicate ApprovedByTwo(d: Db, p: Prepared, i: string, j: string) {
    && i in p.approvals && j in p.approvals && i in d.approvals && j in d.approvals && p.changesetId in d.changesets
    && var x, y, requester := d.approvals[i], d.approvals[j], d.changesets[p.changesetId].requestedBy;
       x.status == y.status == Consumed && x.approver != y.approver && x.approver != requester && y.approver != requester
  }

  // ---- One person, one approval -------------------------------------------------------------------------

  /** The approval stands and has not expired. */
  predicate Stands(d: Db, i: string) {
    i in d.approvals && d.approvals[i].status == Granted && d.now <= d.approvals[i].expiresAt
  }

  predicate SamePerson(d: Db, i: string, j: string) {
    && i in d.approvals && j in d.approvals
    && d.approvals[i].changesetId == d.approvals[j].changesetId && d.approvals[i].approver == d.approvals[j].approver
  }

  ghost predicate OnePerPerson(d: Db) {
    forall i, j {:trigger SamePerson(d, i, j)} | Stands(d, i) && Stands(d, j) && SamePerson(d, i, j) :: i == j
  }

  lemma KeptIsOnePerPerson(a: Db, b: Db)
    requires OnePerPerson(a) && Kept(a, b) && b.approvals.Keys == a.approvals.Keys
    ensures OnePerPerson(b)
  {
    forall i, j | Stands(b, i) && Stands(b, j) && SamePerson(b, i, j)
      ensures i == j
    {
      assert SameGrant(a.approvals[i], b.approvals[i]) && SameGrant(a.approvals[j], b.approvals[j]);
      assert Stands(a, i) && Stands(a, j) && SamePerson(a, i, j);
    }
  }

  lemma AddedIsOnePerPerson(w: World, a: Db, b: Db, id: string, x: string)
    requires OnePerPerson(a) && RowsOk(w, a) && id in a.changesets && x !in a.approvals && b.now == a.now
    requires b.approvals.Keys == a.approvals.Keys + {x} && forall i | i in a.approvals :: b.approvals[i] == a.approvals[i]
    requires b.approvals[x].changesetId == id && b.approvals[x].approver !in Approvers(a, id)
    ensures OnePerPerson(b)
  {
    forall i, j | Stands(b, i) && Stands(b, j) && SamePerson(b, i, j)
      ensures i == j
    {
      if i != x && j != x {
        assert Stands(a, i) && Stands(a, j) && SamePerson(a, i, j);
      } else if i != j {
        var other := if i == x then j else i;
        assert GrantOk(w, a, other);
        assert Counts(a, id, other);
      }
    }
  }

  lemma ApproveIsOnePerPerson(w: World, a: Db, e: Event, b: Db)
    requires OnePerPerson(a) && RowsOk(w, a) && Commits(w, a, e, b) && e.Approve?
    ensures OnePerPerson(b)
  {
    AddedIsOnePerPerson(w, a, b, e.id, e.approvalId);
  }

  lemma RunStepIsOnePerPerson(w: World, states: seq<Db>, events: seq<Event>, k: nat)
    requires IsRun(w, states, events) && k < |events| && OnePerPerson(states[k])
    ensures OnePerPerson(states[k + 1])
  {
    RunKeepsInvariant(w, states, events, k);
    assert StepAt(w, states, events, k);
    if events[k].Approve? {
      ApproveIsOnePerPerson(w, states[k], events[k], states[k + 1]);
    } else {
      StepKeeps(w, states, events, k);
      ApprovalsUntouched(w, states[k], events[k], states[k + 1]);
      KeptIsOnePerPerson(states[k], states[k + 1]);
    }
  }

  lemma {:induction false} RunIsOnePerPerson(w: World, states: seq<Db>, events: seq<Event>, k: nat)
    requires IsRun(w, states, events) && k < |states|
    ensures OnePerPerson(states[k])
  {
    if k > 0 {
      RunIsOnePerPerson(w, states, events, k - 1);
      RunStepIsOnePerPerson(w, states, events, k - 1);
    }
  }

  /** In every run nobody has two approvals of one ChangeSet that stand at the same time. */
  lemma OneStandingApprovalPerPerson(w: World, states: seq<Db>, events: seq<Event>, k: nat, i: string, j: string)
    requires IsRun(w, states, events) && k < |states| && i != j && Stands(states[k], i) && Stands(states[k], j)
    requires states[k].approvals[i].changesetId == states[k].approvals[j].changesetId
    ensures states[k].approvals[i].approver != states[k].approvals[j].approver
  {
    RunIsOnePerPerson(w, states, events, k);
    assert !SamePerson(states[k], i, j);
  }
}
