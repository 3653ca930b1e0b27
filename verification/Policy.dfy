/**
  What a change of the policy generation ends, and what may still run out (db.py:652-675; main.py:2196-2201); which
  starts consume approvals; and the start that checks no row count.
 */
module Policy {
  import opened Tables
  import opened Handlers
  import opened Ledger
  import opened Runs
  import opened Safety
  import Risk

  // ---- ChangeSets of an older policy ------------------------------------------------------------------

  /** A ChangeSet of an older policy is neither planned, nor waiting for approval, nor approved. */
  predicate NotLive(d: Db, c: Changeset) {
    c.generation < d.generation ==> c.state != Planned && c.state != AwaitingApproval && c.state != Approved
  }

  ghost predicate StaleAreNotLive(d: Db) {
    forall id | id in d.changesets :: NotLive(d, d.changesets[id])
  }

  lemma OtherStatesStay(a: Db, b: Db, id: string)
    requires StaleAreNotLive(a) && id in a.changesets && b.generation == a.generation
    requires b.changesets.Keys == a.changesets.Keys
    requires forall x | x in a.changesets && x != id :: b.changesets[x].state == a.changesets[x].state && b.changesets[x].generation == a.changesets[x].generation
    requires NotLive(b, b.changesets[id])
    ensures StaleAreNotLive(b)
  {
    forall x | x in b.changesets
      ensures NotLive(b, b.changesets[x])
    {
      assert NotLive(a, a.changesets[x]);
    }
  }

  lemma BumpStales(w: World, a: Db)
    requires StaleAreNotLive(a) && RowsOk(w, a)
    ensures StaleAreNotLive(Bumped(a))
  {
    var b := Bumped(a);
    forall id | id in b.changesets
      ensures NotLive(b, b.changesets[id])
    {
      assert ChangesetOk(w, a.changesets[id], a.generation);
    }
  }

  lemma SameStatesStay(a: Db, b: Db)
    requires StaleAreNotLive(a) && b.generation == a.generation && b.changesets.Keys == a.changesets.Keys
    requires forall x | x in a.changesets :: b.changesets[x].state == a.changesets[x].state && b.changesets[x].generation == a.changesets[x].generation
    ensures StaleAreNotLive(b)
  {
    forall x | x in b.changesets
      ensures NotLive(b, b.changesets[x])
    {
      assert NotLive(a, a.changesets[x]);
    }
  }

  lemma RowWritesKeepStale(w: World, a: Db, e: Event, b: Db)
    requires StaleAreNotLive(a) && Commits(w, a, e, b)
    requires e.Expire? || e.Show? || e.RequestApproval? || e.Approve? || e.Reject? || e.Cancel? || e.Finish?
    ensures StaleAreNotLive(b)
  {
    if b.changesets == a.changesets {
      SameStatesStay(a, b);
    } else {
      OtherStatesStay(a, b, e.id);
    }
  }

  lemma MoveKeepsStale(a: Db, jobId: string, to: JobState)
    requires StaleAreNotLive(a) && jobId in a.operationJobs && a.operationJobs[jobId].changesetId in a.changesets
    ensures StaleAreNotLive(Moved(a, jobId, to))
  {
    var id := a.operationJobs[jobId].changesetId;
    assert NotLive(a, a.changesets[id]);
    MovedFields(a, jobId, to);
    OtherStatesStay(a, Moved(a, jobId, to), id);
  }

  lemma FinishKeepsStale(a: Db, jobId: string, succeeded: bool)
    requires StaleAreNotLive(a) && jobId in a.operationJobs && a.operationJobs[jobId].changesetId in a.changesets
    ensures StaleAreNotLive(Finished(a, jobId, succeeded))
  {
    FinishedFields(a, jobId, succeeded);
    OtherStatesStay(a, Finished(a, jobId, succeeded), a.operationJobs[jobId].changesetId);
  }

  lemma StepKeepsStale(w: World, a: Db, e: Event, b: Db)
    requires RowsOk(w, a) && StaleAreNotLive(a) && Commits(w, a, e, b)
    ensures StaleAreNotLive(b)
  {
    if e.Bump? {
      BumpStales(w, a);
    } else if e.Expire? || e.Show? || e.RequestApproval? || e.Approve? || e.Reject? || e.Cancel? || e.Finish? {
      RowWritesKeepStale(w, a, e, b);
    } else if e.FinishJob? {
      FinishKeepsStale(a, e.jobId, e.succeeded);
    } else if e.Move? || e.Abandon? {
      MoveKeepsStale(a, e.jobId, if e.Move? then e.to else JobFailed);
    } else if e.Write? || e.Begin? {
      WrittenFields(a, e.request);
      OtherStatesStay(a, b, e.request.changesetId);
    } else if e.Plan? {
      assert StaleAreNotLive(b) by {
        forall x | x in b.changesets
          ensures NotLive(b, b.changesets[x])
        {
          if x != e.id {
            assert NotLive(a, a.changesets[x]);
          }
        }
      }
    } else {
      SameStatesStay(a, b);
    }
  }

  lemma RunStepKeepsStale(w: World, states: seq<Db>, events: seq<Event>, k: nat)
    requires IsRun(w, states, events) && k < |events| && StaleAreNotLive(states[k])
    ensures StaleAreNotLive(states[k + 1])
  {
    RunKeepsInvariant(w, states, events, k);
    assert StepAt(w, states, events, k);
    StepKeepsStale(w, states[k], events[k], states[k + 1]);
  }

  lemma {:induction false} RunKeepsStale(w: World, states: seq<Db>, events: seq<Event>, k: nat)
    requires IsRun(w, states, events) && k < |states|
    ensures StaleAreNotLive(states[k])
  {
    if k > 0 {
      RunKeepsStale(w, states, events, k - 1);
      RunStepKeepsStale(w, states, events, k - 1);
    }
  }

  /** In every run, split starts included, a ChangeSet of an older policy is never approved or up for approval. */
  lemma StaleIsNeverApproved(w: World, states: seq<Db>, events: seq<Event>, k: nat, id: string)
    requires IsRun(w, states, events) && k < |states|
    requires id in states[k].changesets && states[k].changesets[id].generation < states[k].generation
    ensures states[k].changesets[id].state != Approved && states[k].changesets[id].state != AwaitingApproval
  {
    RunKeepsStale(w, states, events, k);
    assert NotLive(states[k], states[k].changesets[id]);
  }

  // ---- What an older policy leaves behind -----------------------------------------------------------------

  /** A request in flight spends this approval, which is of the policy the request was checked under. */
  ghost predicate Claims(d: Db, p: Prepared, i: string) {
    p in d.inFlight && i in p.approvals && i in d.approvals && d.approvals[i].generation == p.generation
  }

  /** Whatever is newly approved, checked, consumed or started is of the current policy, or was checked before. */
  ghost predicate CurrentOrChecked(a: Db, b: Db) {
    && (forall i | i in b.approvals && i !in a.approvals :: b.approvals[i].generation == a.generation)
    && (forall i | IsSpent(b, i) && !IsSpent(a, i) :: b.approvals[i].generation == a.generation || exists p :: Claims(a, p, i))
    && (forall p | p in b.inFlight && p !in a.inFlight :: p.generation == a.generation)
    && |a.starts| <= |b.starts| && b.starts[..|a.starts|] == a.starts
    && (forall n | |a.starts| <= n < |b.starts| ::
          && b.starts[n].request.changesetId in b.changesets
          && (b.changesets[b.starts[n].request.changesetId].generation == a.generation || b.starts[n].request in a.inFlight))
  }

  lemma StartsUntouched(w: World, a: Db, e: Event, b: Db)
    requires Commits(w, a, e, b) && !e.Write? && !e.Begin?
    ensures b.starts == a.starts
  {
    if e.Move? {
      MovedFields(a, e.jobId, e.to);
    }
  }

  lemma ApprovalsUntouched(w: World, a: Db, e: Event, b: Db)
    requires Commits(w, a, e, b) && !e.Approve?
    ensures b.approvals.Keys == a.approvals.Keys
  {
    if e.Move? || e.Abandon? {
      MovedFields(a, e.jobId, if e.Move? then e.to else JobFailed);
    } else if e.Write? || e.Begin? {
      WrittenFields(a, e.request);
    }
  }

  /** What a start spends is of the policy its request was checked under. */
  lemma SpentUnder(w: World, a: Db, p: Prepared, i: string)
    requires RowsOk(w, a) && Backed(w, a, p) && i in p.approvals
    ensures i in a.approvals && a.approvals[i].generation == p.generation
  {
    var n :| 0 <= n < |p.approvals| && p.approvals[n] == i;
    assert GrantOk(w, a, i);
  }

  lemma WriteIsCurrentOrChecked(w: World, a: Db, p: Prepared)
    requires RowsOk(w, a) && Backed(w, a, p) && CanWrite(a, p) && (p.generation == a.generation || p in a.inFlight)
    ensures CurrentOrChecked(a, Written(a, p))
  {
    var b := Written(a, p);
    WrittenFields(a, p);
    SpentExactly(a, b, p);
    forall i | IsSpent(b, i) && !IsSpent(a, i)
      ensures b.approvals[i].generation == a.generation || exists q :: Claims(a, q, i)
    {
      SpentUnder(w, a, p, i);
      assert p.generation == a.generation || Claims(a, p, i);
    }
  }

  lemma ApproveIsCurrent(w: World, a: Db, id: string, approvalId: string, approver: string, planHash: string, ttl: int, nonce: string)
    requires CanApprove(a, id, approvalId, approver, planHash)
    ensures CurrentOrChecked(a, WithApproval(a, id, approvalId, NewApproval(w, a, id, approvalId, approver, ttl, nonce)))
  {
    var x := NewApproval(w, a, id, approvalId, approver, ttl, nonce);
    var b := WithApproval(a, id, approvalId, x);
    assert b.approvals == a.approvals[approvalId := x] && b.starts == a.starts && b.inFlight == a.inFlight;
  }

  lemma QuietIsCurrent(w: World, a: Db, b: Db)
    requires LedgerStep(w, a, b) && b.starts == a.starts && b.approvals.Keys == a.approvals.Keys
    requires forall p | p in b.inFlight && p !in a.inFlight :: p.generation == a.generation
    ensures CurrentOrChecked(a, b)
  {
    assert |b.starts| != |a.starts| + 1;
    assert NoStart(a, b);
  }

  lemma RequestsUntouched(w: World, a: Db, e: Event, b: Db)
    requires Commits(w, a, e, b) && !e.Read?
    ensures b.inFlight == a.inFlight
  {
    if e.Move? || e.Abandon? {
      MovedFields(a, e.jobId, if e.Move? then e.to else JobFailed);
    } else if e.Write? || e.Begin? {
      WrittenFields(a, e.request);
    }
  }

  lemma RequestsAreCurrent(w: World, a: Db, e: Event, b: Db)
    requires Next(w, a, e, b)
    ensures forall p | p in b.inFlight && p !in a.inFlight :: p.generation == a.generation
  {
    if e.Read? {
      ReadFinds(w, a, e.request, e.signature);
    } else {
      RequestsUntouched(w, a, e, b);
    }
  }

  lemma StepIsCurrentOrChecked(w: World, a: Db, e: Event, b: Db)
    requires Invariant(w, a) && Next(w, a, e, b)
    ensures CurrentOrChecked(a, b)
  {
    if e.Begin? {
      ReadFinds(w, a, e.request, e.signature);
      ReadIsBacked(w, a, e.request, e.signature);
      WriteIsCurrentOrChecked(w, a, e.request);
    } else if e.Write? {
      assert Backed(w, a, e.request);
      WriteIsCurrentOrChecked(w, a, e.request);
    } else if e.Approve? {
      ApproveIsCurrent(w, a, e.id, e.approvalId, e.approver, e.planHash, e.ttl, e.nonce);
    } else {
      StepIsLedgerStep(w, a, e, b);
      StartsUntouched(w, a, e, b);
      ApprovalsUntouched(w, a, e, b);
      RequestsAreCurrent(w, a, e, b);
      QuietIsCurrent(w, a, b);
    }
  }

  /**
    What happened between two moments concerns only a generation above `g`, apart from the starts whose requests
    were already in flight at the first.
   */
  ghost predicate OnlyLeftovers(a: Db, b: Db, g: int) {
    && (forall i | i in b.approvals && b.approvals[i].generation <= g ::
          i in a.approvals && (IsSpent(b, i) ==> IsSpent(a, i) || exists p :: Claims(a, p, i)))
    && (forall p | p in b.inFlight :: p in a.inFlight || p.generation > g)
    && |a.starts| <= |b.starts| && b.starts[..|a.starts|] == a.starts
    && (forall n | |a.starts| <= n < |b.starts| ::
          && b.starts[n].request.changesetId in b.changesets
          && (b.changesets[b.starts[n].request.changesetId].generation > g || b.starts[n].request in a.inFlight))
  }

  lemma LeftoverApprovals(a: Db, b: Db, c: Db, g: int, i: string)
    requires OnlyLeftovers(a, b, g) && Kept(a, b) && Kept(b, c) && CurrentOrChecked(b, c) && g < b.generation
    requires i in c.approvals && c.approvals[i].generation <= g
    ensures i in a.approvals && (IsSpent(c, i) ==> IsSpent(a, i) || exists p :: Claims(a, p, i))
  {
    assert i in b.approvals && SameGrant(b.approvals[i], c.approvals[i]);
    if IsSpent(c, i) && !IsSpent(b, i) {
      var p :| Claims(b, p, i);
      assert p in a.inFlight && SameGrant(a.approvals[i], b.approvals[i]);
      assert Claims(a, p, i);
    }
  }

  lemma LeftoverStarts(w: World, a: Db, b: Db, c: Db, g: int, n: nat)
    requires OnlyLeftovers(a, b, g) && Kept(b, c) && CurrentOrChecked(b, c) && g < b.generation && |a.starts| <= n < |c.starts|
    requires Sound(w, b)
    ensures c.starts[n].request.changesetId in c.changesets
    ensures c.changesets[c.starts[n].request.changesetId].generation > g || c.starts[n].request in a.inFlight
  {
    if n < |b.starts| {
      assert c.starts[n] == c.starts[..|b.starts|][n] == b.starts[n];
      var id := b.starts[n].request.changesetId;
      assert SameIdentity(b.changesets[id], c.changesets[id]);
    } else if c.starts[n].request in b.inFlight && c.starts[n].request !in a.inFlight {
      var p := c.starts[n].request;
      assert p.generation > g && Backed(w, b, p);
      assert SameIdentity(b.changesets[p.changesetId], c.changesets[p.changesetId]);
    }
  }

  lemma LeftoversExtend(w: World, a: Db, b: Db, c: Db, g: int)
    requires Sound(w, b) && OnlyLeftovers(a, b, g) && Kept(a, b) && Kept(b, c) && CurrentOrChecked(b, c) && g < b.generation
    ensures OnlyLeftovers(a, c, g)
  {
    forall i | i in c.approvals && c.approvals[i].generation <= g
      ensures i in a.approvals && (IsSpent(c, i) ==> IsSpent(a, i) || exists p :: Claims(a, p, i))
    {
      LeftoverApprovals(a, b, c, g, i);
    }
    forall n | |a.starts| <= n < |c.starts|
      ensures c.starts[n].request.changesetId in c.changesets
      ensures c.changesets[c.starts[n].request.changesetId].generation > g || c.starts[n].request in a.inFlight
    {
      LeftoverStarts(w, a, b, c, g, n);
    }
    assert c.starts[..|a.starts|] == c.starts[..|b.starts|][..|a.starts|];
  }

  /**
    Once the policy generation is past `g`: no approval of `g` or before is issued; one is consumed, and a
    ChangeSet of `g` or before started, only by a request that had passed its checks before; and no further request
    of `g` passes them. In every run, split starts included.
   */
  lemma {:induction false} OldPolicyIsOver(w: World, states: seq<Db>, events: seq<Event>, i: nat, j: nat, g: int)
    requires IsRun(w, states, events) && i <= j < |states| && g < states[i].generation
    ensures OnlyLeftovers(states[i], states[j], g)
    decreases j
  {
    if i < j {
      var k := j - 1;
      OldPolicyIsOver(w, states, events, i, k, g);
      RunKeepsInvariant(w, states, events, k);
      assert StepAt(w, states, events, k);
      StepIsCurrentOrChecked(w, states[k], events[k], states[j]);
      RunKeeps(w, states, events, i, k);
      StepKeeps(w, states, events, k);
      LeftoversExtend(w, states[i], states[k], states[j], g);
    }
  }

  // ---- Mutations need approval ------------------------------------------------------------------------------

  /** Only planning adds ChangeSets. */
  lemma OnlyPlanAdds(w: World, a: Db, e: Event, b: Db, id: string)
    requires Commits(w, a, e, b) && id in b.changesets && id !in a.changesets
    ensures e.Plan? && e.id == id && e.changeset == b.changesets[id]
  {
    if e.Move? || e.Abandon? {
      MovedFields(a, e.jobId, if e.Move? then e.to else JobFailed);
    } else if e.Write? || e.Begin? {
      WrittenFields(a, e.request);
    }
  }

  lemma SameIdentityTransitive(x: Changeset, y: Changeset, z: Changeset)
    requires SameIdentity(x, y) && SameIdentity(y, z)
    ensures SameIdentity(x, z)
  {
  }

  lemma RunStepPlans(w: World, states: seq<Db>, events: seq<Event>, k: nat, id: string)
    requires IsRun(w, states, events) && k < |events| && id in states[k + 1].changesets
    ensures if id in states[k].changesets then SameIdentity(states[k].changesets[id], states[k + 1].changesets[id])
            else events[k].Plan? && events[k].id == id && events[k].changeset == states[k + 1].changesets[id]
  {
    StepKeeps(w, states, events, k);
    assert StepAt(w, states, events, k);
    if id !in states[k].changesets {
      OnlyPlanAdds(w, states[k], events[k], states[k + 1], id);
    }
  }

  /** Every ChangeSet of a run was planned in it, and has kept its identity since. */
  lemma {:induction false} PlannedBefore(w: World, states: seq<Db>, events: seq<Event>, k: nat, id: string) returns (m: nat)
    requires IsRun(w, states, events) && k < |states| && id in states[k].changesets
    ensures m < k && events[m].Plan? && events[m].id == id && SameIdentity(events[m].changeset, states[k].changesets[id])
  {
    RunStepPlans(w, states, events, k - 1, id);
    if id in states[k - 1].changesets {
      m := PlannedBefore(w, states, events, k - 1, id);
      SameIdentityTransitive(events[m].changeset, states[k - 1].changesets[id], states[k].changesets[id]);
    } else {
      m := k - 1;
    }
  }

  lemma RowOfPlan(w: World, states: seq<Db>, events: seq<Event>, m: nat)
    requires IsRun(w, states, events) && m < |events| && events[m].Plan?
    ensures NewRow(w, states[m], events[m].id, events[m].changeset)
  {
    assert StepAt(w, states, events, m);
  }

  /** In every run, a start of a mutation whose planned name has no read prefix consumed at least one approval. */
  lemma MutationsConsumeApprovals(w: World, states: seq<Db>, events: seq<Event>, k: nat, n: nat, operation: string)
    requires IsRun(w, states, events) && k < |states| && n < |states[k].starts|
    requires var p := states[k].starts[n].request;
             p.changesetId in states[k].changesets && states[k].changesets[p.changesetId].operation == Risk.PlannedOperation(operation)
    requires !Risk.HasReadPrefix(Risk.PlannedOperation(operation))
    ensures states[k].starts[n].request.approvals != []
  {
    var p := states[k].starts[n].request;
    var m := PlannedBefore(w, states, events, k, p.changesetId);
    RowOfPlan(w, states, events, m);
    Risk.PlannedNeedsApprovalIff(operation);
    RunKeepsInvariant(w, states, events, k);
    assert Backed(w, states[k], p);
  }

  // ---- The start that checks no row count -------------------------------------------------------------------

  lemma SpentOnAfter(w: World, a: Db, p: Prepared)
    requires Backed(w, a, p)
    ensures SpentOn(Begun(a, p), p.changesetId) == SpentOn(a, p.changesetId) + StillSpendable(a, p.approvals)
    ensures SpentOn(a, p.changesetId) !! StillSpendable(a, p.approvals)
  {
    var b := Begun(a, p);
    forall i | i in p.approvals
      ensures i in a.approvals && a.approvals[i].changesetId == p.changesetId
    {
      var n :| 0 <= n < |p.approvals| && p.approvals[n] == i;
    }
    assert forall i | i in a.approvals :: b.approvals[i].changesetId == a.approvals[i].changesetId;
  }

  lemma NextMultiple(quorum: nat, count: nat, more: nat)
    ensures quorum * count + more == quorum * (count + 1) <==> more == quorum
  {
    assert quorum * (count + 1) == quorum * count + quorum;
  }

  /**
    `execute_changeset` does not look at the row count of its update. Were its block split, its writes would keep
    the accounting exactly if every selected approval were still unspent, which the job start paths check.
   */
  lemma UncheckedWritesKeepAccountsIff(w: World, a: Db, p: Prepared)
    requires Invariant(w, a) && Backed(w, a, p)
    ensures var b, id := Begun(a, p), p.changesetId;
            |SpentOn(b, id)| == Quorum(b.changesets[id]) * StartsOf(b.starts, id) <==> AllSpendable(a, p.approvals)
  {
    BegunFields(a, p);
    SpentOnAfter(w, a, p);
    ConsumedPerStart(w, a, p.changesetId);
    QuorateDistinct(a, p);
    AllStillSpendable(a, p.approvals);
    CountsAfter(a.starts, Start(p, a.now, a.generation), Quorum(a.changesets[p.changesetId]),
                SpentOn(a, p.changesetId), StillSpendable(a, p.approvals));
  }

  lemma BegunFields(a: Db, p: Prepared)
    requires p.changesetId in a.changesets
    ensures var b, id := Begun(a, p), p.changesetId;
            b.starts == a.starts + [Start(p, a.now, a.generation)] && id in b.changesets && Quorum(b.changesets[id]) == Quorum(a.changesets[id])
  {
  }

  lemma CountsAfter(starts: seq<Start>, s: Start, quorum: nat, before: set<string>, more: set<string>)
    requires before !! more && |before| == quorum * StartsOf(starts, s.request.changesetId)
    ensures |before + more| == quorum * StartsOf(starts + [s], s.request.changesetId) <==> |more| == quorum
  {
    UnionSize(before, more);
    StartCounted(starts, s, s.request.changesetId);
    NextMultiple(quorum, StartsOf(starts, s.request.changesetId), |more|);
  }

  lemma StartCounted(starts: seq<Start>, s: Start, id: string)
    ensures StartsOf(starts + [s], id) == StartsOf(starts, id) + if s.request.changesetId == id then 1 else 0
  {
    StartsPrefix(starts, s, |starts|, id);
  }

  lemma {:induction false} StartsPrefix(starts: seq<Start>, s: Start, k: nat, id: string)
    requires k <= |starts|
    ensures StartsTo(starts + [s], k, id) == StartsTo(starts, k, id)
  {
    if k > 0 {
      StartsPrefix(starts, s, k - 1, id);
    }
  }
}
