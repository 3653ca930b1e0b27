/**
  How long a ChangeSet lives (main.py:225-239, 874-887, 2210-2240).
 */
module Expiry {
  import opened Tables
  import opened Handlers
  import opened Ledger
  import opened Runs
  import opened Safety

  /** The states from which a ChangeSet is neither expired nor rejected nor cancelled. */
  lemma TerminalStates(s: State)
    ensures Terminal(s) <==>
            || s == Executed || s == Failed || s == Rejected || s == Cancelled || s == Expired || s == PolicyDenied || s == PreviewFailed
            || s == StalePolicy
  {
  }

  /** A ChangeSet is EXPIRED only after its time. */
  predicate Late(d: Db, c: Changeset) {
    c.state == Expired ==> c.expiresAt != 0 && c.expiresAt < d.now
  }

  ghost predicate ExpiredAreLate(d: Db) {
    forall id | id in d.changesets :: Late(d, d.changesets[id])
  }

  /** A step keeps that where it expires a ChangeSet, if at all, only past its time. */
  predicate ExpiresLate(d: Db, x: Changeset, y: Changeset) {
    y.expiresAt == x.expiresAt && (y.state == Expired && x.state != Expired ==> x.expiresAt != 0 && x.expiresAt < d.now)
  }

  lemma OneExpiresLate(a: Db, b: Db, id: string)
    requires ExpiredAreLate(a) && a.now <= b.now && id in a.changesets && b.changesets.Keys == a.changesets.Keys
    requires forall x | x in a.changesets && x != id :: b.changesets[x] == a.changesets[x]
    requires ExpiresLate(a, a.changesets[id], b.changesets[id])
    ensures ExpiredAreLate(b)
  {
    forall x | x in b.changesets
      ensures Late(b, b.changesets[x])
    {
      assert Late(a, a.changesets[x]);
    }
  }

  lemma NoneExpires(a: Db, b: Db)
    requires ExpiredAreLate(a) && a.now <= b.now && b.changesets.Keys == a.changesets.Keys
    requires forall x | x in a.changesets :: ExpiresLate(a, a.changesets[x], b.changesets[x])
    ensures ExpiredAreLate(b)
  {
    forall x | x in b.changesets
      ensures Late(b, b.changesets[x])
    {
      assert Late(a, a.changesets[x]) && ExpiresLate(a, a.changesets[x], b.changesets[x]);
    }
  }

  lemma RowWritesExpireLate(w: World, a: Db, e: Event, b: Db)
    requires ExpiredAreLate(a) && Commits(w, a, e, b)
    requires e.Expire? || e.Show? || e.RequestApproval? || e.Approve? || e.Reject? || e.Cancel? || e.Finish?
    ensures ExpiredAreLate(b)
  {
    if b.changesets == a.changesets {
      NoneExpires(a, b);
    } else {
      OneExpiresLate(a, b, e.id);
    }
  }

  lemma MoveExpiresNone(a: Db, jobId: string, to: JobState)
    requires ExpiredAreLate(a) && jobId in a.operationJobs && a.operationJobs[jobId].changesetId in a.changesets
    ensures ExpiredAreLate(Moved(a, jobId, to))
  {
    MovedFields(a, jobId, to);
    OneExpiresLate(a, Moved(a, jobId, to), a.operationJobs[jobId].changesetId);
  }

  lemma FinishExpiresNone(a: Db, jobId: string, succeeded: bool)
    requires ExpiredAreLate(a) && jobId in a.operationJobs && a.operationJobs[jobId].changesetId in a.changesets
    ensures ExpiredAreLate(Finished(a, jobId, succeeded))
  {
    FinishedFields(a, jobId, succeeded);
    OneExpiresLate(a, Finished(a, jobId, succeeded), a.operationJobs[jobId].changesetId);
  }

  lemma PlanExpiresNone(w: World, a: Db, id: string, c: Changeset)
    requires ExpiredAreLate(a) && NewRow(w, a, id, c)
    ensures ExpiredAreLate(WithChangeset(a, id, c))
  {
    forall x | x in WithChangeset(a, id, c).changesets
      ensures Late(WithChangeset(a, id, c), WithChangeset(a, id, c).changesets[x])
    {
      if x != id {
        assert Late(a, a.changesets[x]);
      }
    }
  }

  lemma StepExpiresLate(w: World, a: Db, e: Event, b: Db)
    requires ExpiredAreLate(a) && Commits(w, a, e, b)
    ensures ExpiredAreLate(b)
  {
    if e.Expire? || e.Show? || e.RequestApproval? || e.Approve? || e.Reject? || e.Cancel? || e.Finish? {
      RowWritesExpireLate(w, a, e, b);
    } else if e.FinishJob? {
      FinishExpiresNone(a, e.jobId, e.succeeded);
    } else if e.Move? || e.Abandon? {
      MoveExpiresNone(a, e.jobId, if e.Move? then e.to else JobFailed);
    } else if e.Write? || e.Begin? {
      WrittenFields(a, e.request);
      OneExpiresLate(a, b, e.request.changesetId);
    } else if e.Plan? {
      PlanExpiresNone(w, a, e.id, e.changeset);
    } else {
      NoneExpires(a, b);
    }
  }

  lemma RunStepExpiresLate(w: World, states: seq<Db>, events: seq<Event>, k: nat)
    requires IsRun(w, states, events) && k < |events| && ExpiredAreLate(states[k])
    ensures ExpiredAreLate(states[k + 1])
  {
    assert StepAt(w, states, events, k);
    StepExpiresLate(w, states[k], events[k], states[k + 1]);
  }

  lemma {:induction false} RunExpiresLate(w: World, states: seq<Db>, events: seq<Event>, k: nat)
    requires IsRun(w, states, events) && k < |states|
    ensures ExpiredAreLate(states[k])
  {
    if k > 0 {
      RunExpiresLate(w, states, events, k - 1);
      RunStepExpiresLate(w, states, events, k - 1);
    }
  }

  lemma PlannedRowIsAdded(w: World, states: seq<Db>, events: seq<Event>, i: nat, id: string)
    requires IsRun(w, states, events) && i < |events| && events[i].Plan? && events[i].id == id
    ensures id in states[i + 1].changesets && states[i + 1].changesets[id] == events[i].changeset
  {
    assert StepAt(w, states, events, i);
  }

  /**
    In every run a ChangeSet planned for `ttl` seconds lives that long: until then it is not EXPIRED and looking it
    up changes nothing; afterwards looking it up expires it, unless it is in a terminal state.
   */
  lemma LivesForItsTime(w: World, states: seq<Db>, events: seq<Event>, i: nat, j: nat, id: string, ttl: int)
    requires IsRun(w, states, events) && i < j < |states| && events[i].Plan? && events[i].id == id
    requires events[i].changeset.expiresAt == states[i].now + ttl != 0
    ensures id in states[j].changesets
    ensures states[j].now <= states[i].now + ttl ==> states[j].changesets[id].state != Expired && Touch(states[j], id) == states[j]
    ensures states[i].now + ttl < states[j].now ==>
              var looked := Touch(states[j], id);
              && looked == states[j].(changesets := states[j].changesets[id := looked.changesets[id]])
              && looked.changesets[id].state == if Terminal(states[j].changesets[id].state) then states[j].changesets[id].state else Expired
  {
    PlannedRowIsAdded(w, states, events, i, id);
    RunKeeps(w, states, events, i + 1, j);
    assert SameIdentity(states[i + 1].changesets[id], states[j].changesets[id]);
    RunExpiresLate(w, states, events, j);
    assert Late(states[j], states[j].changesets[id]);
    assert states[j].changesets[id := states[j].changesets[id]] == states[j].changesets;
  }
}
