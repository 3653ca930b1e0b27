/**
  The two job start paths split into their checks and their writes (main.py:1834-1862, 4636-4667): what may come
  between the two, exactly when the writes still go through, and how often one job can start.
 */
module DelayedStarts {
  import opened Ordering
  import opened Wrappers
  import opened Tables
  import opened Handlers
  import opened Ledger
  import opened Runs
  import opened Safety
  import opened Policy

  // ---- When an approval stops being spendable -----------------------------------------------------------

  /** The states of a ChangeSet whose granted approvals a policy change withdraws. */
  predicate Withdrawable(s: State) {
    Undecided(s) || s == StalePolicy
  }

  /** The step takes an approval of this ChangeSet out of APPROVED. */
  ghost predicate Settles(a: Db, e: Event, changesetId: string, x: string) {
    match e
    case Reject(id) => id == changesetId
    case Cancel(id) => id == changesetId
    case Bump => changesetId in a.changesets && Withdrawable(a.changesets[changesetId].state)
    case Write(p) => x in p.approvals
    case Begin(p, _) => x in p.approvals
    case _ => false
  }

  predicate IsGranted(d: Db, x: string) {
    x in d.approvals && d.approvals[x].status == Granted
  }

  lemma EndedGrants(a: Db, id: string, s: State, x: string)
    requires id in a.changesets && IsGranted(a, x)
    ensures IsGranted(Ended(a, id, s), x) <==> a.approvals[x].changesetId != id
  {
  }

  lemma StaledStates(a: Db, id: string)
    requires id in a.changesets && a.changesets[id].generation <= a.generation
    ensures id in StaleIds(Staled(a.changesets, a.generation + 1)) <==> Withdrawable(a.changesets[id].state)
  {
  }

  lemma BumpedGrants(w: World, a: Db, x: string)
    requires RowsOk(w, a) && IsGranted(a, x)
    ensures a.approvals[x].changesetId in a.changesets
    ensures IsGranted(Bumped(a), x) <==> !Withdrawable(a.changesets[a.approvals[x].changesetId].state)
  {
    assert GrantOk(w, a, x);
    var id := a.approvals[x].changesetId;
    assert ChangesetOk(w, a.changesets[id], a.generation);
    StaledStates(a, id);
    WithdrawnIff(a.approvals, StaleIds(Staled(a.changesets, a.generation + 1)), x);
  }

  lemma WithdrawnIff(approvals: map<string, Approval>, ids: set<string>, x: string)
    requires x in approvals && approvals[x].status == Granted
    ensures x in Withdraw(approvals, ids, StalePolicy)
    ensures Withdraw(approvals, ids, StalePolicy)[x].status == Granted <==> approvals[x].changesetId !in ids
  {
  }

  lemma SpentGrants(w: World, a: Db, p: Prepared, x: string)
    requires RowsOk(w, a) && CanWrite(a, p) && IsGranted(a, x)
    ensures IsGranted(Written(a, p), x) <==> x !in p.approvals
  {
    WrittenFields(a, p);
    assert GrantOk(w, a, x);
  }

  /** The steps that leave all rows of the approval table as they are. */
  lemma GrantsUntouched(w: World, a: Db, e: Event, b: Db)
    requires Commits(w, a, e, b)
    requires !(e.Approve? || e.Reject? || e.Cancel? || e.Bump? || e.Write? || e.Begin?)
    ensures b.approvals == a.approvals
  {
    if e.Move? || e.Abandon? {
      MovedFields(a, e.jobId, if e.Move? then e.to else JobFailed);
    }
  }

  lemma SettlingGrants(w: World, a: Db, e: Event, b: Db, x: string)
    requires RowsOk(w, a) && Commits(w, a, e, b) && IsGranted(a, x)
    requires e.Reject? || e.Cancel? || e.Bump? || e.Write? || e.Begin?
    ensures IsGranted(b, x) <==> !Settles(a, e, a.approvals[x].changesetId, x)
  {
    if e.Reject? || e.Cancel? {
      EndedGrants(a, e.id, if e.Reject? then Rejected else Cancelled, x);
    } else if e.Bump? {
      BumpedGrants(w, a, x);
    } else {
      SpentGrants(w, a, e.request, x);
    }
  }

  /** A granted approval stays so exactly if the step does not settle it. */
  lemma StaysGrantedIff(w: World, a: Db, e: Event, b: Db, x: string)
    requires RowsOk(w, a) && Commits(w, a, e, b) && IsGranted(a, x)
    ensures IsGranted(b, x) <==> !Settles(a, e, a.approvals[x].changesetId, x)
  {
    if e.Reject? || e.Cancel? || e.Bump? || e.Write? || e.Begin? {
      SettlingGrants(w, a, e, b, x);
    } else if e.Approve? {
      assert x != e.approvalId;
    } else {
      GrantsUntouched(w, a, e, b);
    }
  }

  lemma RunStaysGranted(w: World, states: seq<Db>, events: seq<Event>, k: nat, x: string)
    requires IsRun(w, states, events) && k < |events| && IsGranted(states[k], x)
    ensures IsGranted(states[k + 1], x) <==> !Settles(states[k], events[k], states[k].approvals[x].changesetId, x)
  {
    RunKeepsInvariant(w, states, events, k);
    assert StepAt(w, states, events, k);
    StaysGrantedIff(w, states[k], events[k], states[k + 1], x);
  }

  lemma {:induction false} GrantedUntilSettled(w: World, states: seq<Db>, events: seq<Event>, i: nat, k: nat, id: string, x: string)
    requires IsRun(w, states, events) && i <= k < |states| && IsGranted(states[i], x) && states[i].approvals[x].changesetId == id
    ensures IsGranted(states[k], x) <==> forall m | i <= m < k :: !Settles(states[m], events[m], id, x)
    decreases k
  {
    if i < k {
      GrantedUntilSettled(w, states, events, i, k - 1, id, x);
      RunKeeps(w, states, events, i, k - 1);
      StepKeeps(w, states, events, k - 1);
      if IsGranted(states[k - 1], x) {
        assert SameGrant(states[i].approvals[x], states[k - 1].approvals[x]);
        RunStaysGranted(w, states, events, k - 1, x);
      }
    }
  }

  // ---- When the writes of a checked start go through ------------------------------------------------------

  /** The job the request will start. Only provider job rows can disappear. */
  predicate HasJob(d: Db, p: Prepared) {
    match p.kind
    case Operation => p.jobId in d.operationJobs
    case Provision => p.jobId in d.providerJobs
    case Direct => true
  }

  /** The step makes a checked start abort: it settles one of the approvals the start selected. */
  ghost predicate Aborts(a: Db, e: Event, p: Prepared) {
    exists x :: x in p.approvals && Settles(a, e, p.changesetId, x)
  }

  lemma SpendableIffGranted(w: World, d: Db, x: string)
    requires RowsOk(w, d)
    ensures Spendable(d, x) <==> IsGranted(d, x)
  {
    if x in d.approvals {
      assert GrantOk(w, d, x);
    }
  }

  lemma WritableIffGranted(w: World, d: Db, p: Prepared)
    requires RowsOk(w, d) && p.changesetId in d.changesets
    ensures CanWrite(d, p) <==> HasJob(d, p) && forall x | x in p.approvals :: IsGranted(d, x)
  {
    forall n | 0 <= n < |p.approvals|
      ensures Spendable(d, p.approvals[n]) <==> IsGranted(d, p.approvals[n])
    {
      SpendableIffGranted(w, d, p.approvals[n]);
    }
    if forall x | x in p.approvals :: IsGranted(d, x) {
      assert forall n | 0 <= n < |p.approvals| :: p.approvals[n] in p.approvals;
    } else {
      var x :| x in p.approvals && !IsGranted(d, x);
      var n :| 0 <= n < |p.approvals| && p.approvals[n] == x;
    }
  }

  /** The approvals a start selected were granted when it was checked. */
  lemma SelectedAreGranted(w: World, d: Db, p: Prepared, signature: string, x: string)
    requires ReadOk(w, d, p, signature) && x in p.approvals
    ensures IsGranted(d, x) && d.approvals[x].changesetId == p.changesetId
  {
    ReadFinds(w, d, p, signature);
    PicksAreQuorate(w, d, p);
    var n :| 0 <= n < |p.approvals| && p.approvals[n] == x;
  }

  lemma SelectedWereGranted(w: World, states: seq<Db>, events: seq<Event>, i: nat, p: Prepared, signature: string, x: string)
    requires IsRun(w, states, events) && i < |events| && events[i] == Read(p, signature) && x in p.approvals
    ensures IsGranted(states[i], x) && states[i].approvals[x].changesetId == p.changesetId
  {
    assert StepAt(w, states, events, i);
    SelectedAreGranted(w, states[i], p, signature, x);
  }

  /**
    A start that passed its checks can make its writes later exactly if its job is still there and nothing in between
    settled one of its approvals: no rejection or cancellation of its ChangeSet, no policy change while that was
    undecided or stale, and no start that spent one of them.
   */
  lemma DelayedWriteIff(w: World, states: seq<Db>, events: seq<Event>, i: nat, k: nat, p: Prepared, signature: string)
    requires IsRun(w, states, events) && i < k < |states| && events[i] == Read(p, signature)
    ensures CanWrite(states[k], p) <==> HasJob(states[k], p) && forall m | i < m < k :: !Aborts(states[m], events[m], p)
  {
    RequestStays(w, states, events, i, k, p, signature);
    RunKeepsInvariant(w, states, events, k);
    WritableIffGranted(w, states[k], p);
    forall x | x in p.approvals
      ensures IsGranted(states[k], x) <==> forall m | i < m < k :: !Settles(states[m], events[m], p.changesetId, x)
    {
      SelectedWereGranted(w, states, events, i, p, signature, x);
      GrantedUntilSettled(w, states, events, i, k, p.changesetId, x);
    }
  }

  /**
    Of a policy change at `j` in particular: straight after it the start can write exactly if it could before and either
    has no approvals to spend or its ChangeSet was neither undecided nor stale. An undecided or stale ChangeSet's
    start with approvals never writes again.
   */
  lemma BumpAbortsStartIff(w: World, states: seq<Db>, events: seq<Event>, i: nat, j: nat, k: nat, p: Prepared, signature: string)
    requires IsRun(w, states, events) && i < j < k < |states| && events[i] == Read(p, signature) && events[j] == Bump
    ensures p.changesetId in states[j].changesets
    ensures var withdrawn := p.approvals != [] && Withdrawable(states[j].changesets[p.changesetId].state);
            && (CanWrite(states[j + 1], p) <==> CanWrite(states[j], p) && !withdrawn)
            && (withdrawn ==> !CanWrite(states[k], p))
  {
    RequestStays(w, states, events, i, j, p, signature);
    DelayedWriteIff(w, states, events, i, j, p, signature);
    DelayedWriteIff(w, states, events, i, j + 1, p, signature);
    DelayedWriteIff(w, states, events, i, k, p, signature);
    BumpKeepsJobs(w, states, events, j, p);
    BumpAbortsIff(states[j], p);
  }

  lemma BumpKeepsJobs(w: World, states: seq<Db>, events: seq<Event>, j: nat, p: Prepared)
    requires IsRun(w, states, events) && j < |events| && events[j] == Bump
    ensures HasJob(states[j + 1], p) <==> HasJob(states[j], p)
  {
    assert StepAt(w, states, events, j);
  }

  lemma BumpAbortsIff(a: Db, p: Prepared)
    requires p.changesetId in a.changesets
    ensures Aborts(a, Bump, p) <==> p.approvals != [] && Withdrawable(a.changesets[p.changesetId].state)
  {
    if p.approvals != [] {
      assert p.approvals[0] in p.approvals;
    }
  }

  // ---- Tickets and time ---------------------------------------------------------------------------------------

  predicate Authorizing(e: Event, jobId: string) {
    e.Authorize? && e.jobId == jobId
  }

  /** Only authorizing a job changes the ticket last issued for it. */
  lemma IssuedStays(w: World, a: Db, e: Event, b: Db, jobId: string)
    requires Commits(w, a, e, b) && !Authorizing(e, jobId) && jobId in b.operationJobs && b.operationJobs[jobId].issued.Some?
    ensures jobId in a.operationJobs && a.operationJobs[jobId].issued == b.operationJobs[jobId].issued
  {
    if LeavesJobs(e) {
      JobsUntouched(w, a, e, b);
    } else if e.FinishJob? || e.Move? || e.Abandon? {
      SettledJob(w, a, e, b);
    } else if e.Write? || e.Begin? {
      WrittenJob(w, a, e.request);
    }
  }

  lemma IssuedNow(w: World, a: Db, e: Event, b: Db, jobId: string)
    requires Commits(w, a, e, b) && Authorizing(e, jobId)
    ensures jobId in b.operationJobs && b.operationJobs[jobId].issued.Some?
    ensures b.operationJobs[jobId].issued.value.issuedAt == a.now
  {
  }

  /** Step `m` issued the ticket that is still the job's at `k`. */
  ghost predicate IssuedAtStep(states: seq<Db>, events: seq<Event>, m: nat, k: nat, jobId: string, t: Ticket)
    requires |states| == |events| + 1
  {
    && m < k < |states| && Authorizing(events[m], jobId) && t.issuedAt == states[m].now
    && jobId in states[m + 1].operationJobs && states[m + 1].operationJobs[jobId].issued == Some(t)
    && forall n | m < n < k :: !Authorizing(events[n], jobId)
  }

  /** A job's ticket was issued by the latest authorization of the job. */
  lemma {:induction false} TicketWasIssued(w: World, states: seq<Db>, events: seq<Event>, k: nat, jobId: string, t: Ticket) returns (m: nat)
    requires IsRun(w, states, events) && k < |states|
    requires jobId in states[k].operationJobs && states[k].operationJobs[jobId].issued == Some(t)
    ensures IssuedAtStep(states, events, m, k, jobId, t)
  {
    IssuedBefore(w, states, events, k - 1, jobId, t);
    if Authorizing(events[k - 1], jobId) {
      m := k - 1;
    } else {
      m := TicketWasIssued(w, states, events, k - 1, jobId, t);
    }
  }

  lemma IssuedBefore(w: World, states: seq<Db>, events: seq<Event>, k: nat, jobId: string, t: Ticket)
    requires IsRun(w, states, events) && k < |events|
    requires jobId in states[k + 1].operationJobs && states[k + 1].operationJobs[jobId].issued == Some(t)
    ensures if Authorizing(events[k], jobId) then t.issuedAt == states[k].now
            else jobId in states[k].operationJobs && states[k].operationJobs[jobId].issued == Some(t)
  {
    assert StepAt(w, states, events, k);
    if Authorizing(events[k], jobId) {
      IssuedNow(w, states[k], events[k], states[k + 1], jobId);
    } else {
      IssuedStays(w, states[k], events[k], states[k + 1], jobId);
    }
  }

  lemma CheckedNow(w: World, states: seq<Db>, events: seq<Event>, k: nat)
    requires IsRun(w, states, events) && k < |events| && (events[k].Read? || events[k].Begin?)
    ensures ReadOk(w, states[k], events[k].request, events[k].signature)
  {
    assert StepAt(w, states, events, k);
  }

  /** The approval has not expired, and expires no later than its ChangeSet. */
  predicate InDate(d: Db, id: string, x: string) {
    && x in d.approvals && id in d.changesets && d.now <= d.approvals[x].expiresAt
    && (d.changesets[id].expiresAt != 0 ==> d.approvals[x].expiresAt <= d.changesets[id].expiresAt)
  }

  lemma SelectedAreInDate(w: World, d: Db, p: Prepared, signature: string, x: string)
    requires RowsOk(w, d) && ReadOk(w, d, p, signature) && x in p.approvals
    ensures InDate(d, p.changesetId, x)
  {
    ReadFinds(w, d, p, signature);
    PicksAreQuorate(w, d, p);
    var n :| 0 <= n < |p.approvals| && p.approvals[n] == x;
    assert GrantOk(w, d, x);
  }

  /**
    The checks of a job start pass only with the ticket of the latest authorization of the job, within 120 seconds of
    it, and before any approval they select expires, which is no later than the ChangeSet does. A start in one block is committed at that very time.
   */
  lemma StartsAreTimely(w: World, states: seq<Db>, events: seq<Event>, k: nat) returns (m: nat, t: Ticket)
    requires IsRun(w, states, events) && CollisionFree(w)
    requires k < |events| && (events[k].Read? || events[k].Begin?) && events[k].request.kind == Operation
    ensures var p := events[k].request;
            && IssuedAtStep(states, events, m, k, p.jobId, t) && SameTicket(t, p.ticket)
            && states[m].now <= states[k].now <= states[m].now + TICKET_SECONDS
            && (forall x | x in p.approvals :: InDate(states[k], p.changesetId, x))
    ensures events[k].Begin? ==>
              |states[k + 1].starts| > 0 && states[k + 1].starts[|states[k + 1].starts| - 1] == Start(events[k].request, states[k].now, states[k].generation)
  {
    var p, signature := events[k].request, events[k].signature;
    RunKeepsInvariant(w, states, events, k);
    CheckedNow(w, states, events, k);
    OnlyLatestTicketStarts(w, states[k], p, signature);
    ReadFinds(w, states[k], p, signature);
    t := states[k].operationJobs[p.jobId].issued.value;
    m := TicketWasIssued(w, states, events, k, p.jobId, t);
    forall x | x in p.approvals
      ensures InDate(states[k], p.changesetId, x)
    {
      SelectedAreInDate(w, states[k], p, signature, x);
    }
    BlockIsCommittedNow(w, states, events, k);
  }

  lemma BlockIsCommittedNow(w: World, states: seq<Db>, events: seq<Event>, k: nat)
    requires IsRun(w, states, events) && k < |events|
    ensures events[k].Begin? ==>
              |states[k + 1].starts| > 0 && states[k + 1].starts[|states[k + 1].starts| - 1] == Start(events[k].request, states[k].now, states[k].generation)
  {
    assert StepAt(w, states, events, k);
    if events[k].Begin? {
      WrittenFields(states[k], events[k].request);
    }
  }

  /** The writes look at no clock: a start checked in time may be written at any later time. */
  lemma WritesIgnoreTheClock(d: Db, p: Prepared, now: int)
    ensures CanWrite(d.(now := now), p) <==> CanWrite(d, p)
  {
    assert forall i :: Spendable(d.(now := now), i) <==> Spendable(d, i);
  }

  // ---- How often a job starts -------------------------------------------------------------------------------

  /** After one start of a job another one can write exactly if it could before and shares no approval with the first. */
  lemma SecondStartIff(a: Db, p: Prepared, q: Prepared)
    requires CanWrite(a, p) && p.kind == q.kind == Operation && p.jobId == q.jobId
    ensures CanWrite(Written(a, p), q) <==> CanWrite(a, q) && forall x | x in q.approvals :: x !in p.approvals
  {
    var b := Written(a, p);
    WrittenFields(a, p);
    forall x
      ensures Spendable(b, x) <==> Spendable(a, x) && x !in p.approvals
    {
      if x in p.approvals {
        var n :| 0 <= n < |p.approvals| && p.approvals[n] == x;
        assert Spendable(a, x);
      }
    }
    if forall x | x in q.approvals :: x !in p.approvals {
      assert forall n | 0 <= n < |q.approvals| :: q.approvals[n] in q.approvals;
    } else {
      var x :| x in q.approvals && x in p.approvals;
      var n :| 0 <= n < |q.approvals| && q.approvals[n] == x;
    }
  }

  /** The request would start this operation job. */
  predicate ForJob(p: Prepared, jobId: string) {
    p.kind == Operation && p.jobId == jobId
  }

  predicate HasLeft(d: Db, jobId: string) {
    jobId in d.operationJobs && Rank(d.operationJobs[jobId].state) == 2
  }

  lemma ReadyWhenChecked(w: World, a: Db, p: Prepared, signature: string)
    requires ReadOk(w, a, p, signature) && p.kind == Operation
    ensures p.jobId in a.operationJobs && a.operationJobs[p.jobId].state == Ready
  {
  }

  lemma RequestsAfter(w: World, a: Db, e: Event, b: Db)
    requires Commits(w, a, e, b)
    ensures b.inFlight == a.inFlight + if e.Read? then {e.request} else {}
  {
    if !e.Read? {
      RequestsUntouched(w, a, e, b);
    }
  }

  lemma LeftIsNotChecked(w: World, a: Db, e: Event, jobId: string)
    requires Checked(w, a, e) && HasLeft(a, jobId) && (e.Read? || e.Begin?)
    ensures !ForJob(e.request, jobId)
  {
    if e.request.kind == Operation {
      ReadyWhenChecked(w, a, e.request, e.signature);
    }
  }

  /** A job that has left READY passes no further checks: no request for it appears, and none starts in one block. */
  lemma NoNewRequest(w: World, a: Db, e: Event, b: Db, jobId: string)
    requires Next(w, a, e, b) && HasLeft(a, jobId)
    ensures forall p | p in b.inFlight && ForJob(p, jobId) :: p in a.inFlight
    ensures e.Begin? ==> !ForJob(e.request, jobId)
  {
    RequestsAfter(w, a, e, b);
    if e.Read? || e.Begin? {
      LeftIsNotChecked(w, a, e, jobId);
    }
  }

  lemma {:induction false} RequestsAreOlder(w: World, states: seq<Db>, events: seq<Event>, s: nat, t: nat, jobId: string)
    requires IsRun(w, states, events) && s <= t < |states| && HasLeft(states[s], jobId)
    ensures HasLeft(states[t], jobId) && forall p | p in states[t].inFlight && ForJob(p, jobId) :: p in states[s].inFlight
    decreases t
  {
    if s < t {
      RequestsAreOlder(w, states, events, s, t - 1, jobId);
      RunNoNewRequest(w, states, events, t - 1, jobId);
    }
  }

  lemma RunNoNewRequest(w: World, states: seq<Db>, events: seq<Event>, t: nat, jobId: string)
    requires IsRun(w, states, events) && t < |events| && HasLeft(states[t], jobId)
    ensures HasLeft(states[t + 1], jobId)
    ensures forall p | p in states[t + 1].inFlight && ForJob(p, jobId) :: p in states[t].inFlight
    ensures events[t].Begin? ==> !ForJob(events[t].request, jobId)
  {
    assert StepAt(w, states, events, t);
    NoNewRequest(w, states[t], events[t], states[t + 1], jobId);
    StepKeepsJob(w, states, events, t, jobId);
  }

  /** The step that committed a start. */
  ghost predicate CommitsStart(w: World, states: seq<Db>, events: seq<Event>, t: nat, n: nat)
    requires |states| == |events| + 1
  {
    && t < |events| && (events[t].Write? || events[t].Begin?) && |states[t].starts| == n
    && |states[t + 1].starts| == n + 1 && states[t + 1].starts[n].request == events[t].request
  }

  lemma StepAddsStart(w: World, states: seq<Db>, events: seq<Event>, t: nat)
    requires IsRun(w, states, events) && t < |events|
    ensures states[t + 1].starts == states[t].starts || CommitsStart(w, states, events, t, |states[t].starts|)
    ensures states[t].starts <= states[t + 1].starts
  {
    assert StepAt(w, states, events, t);
    if events[t].Write? || events[t].Begin? {
      WrittenFields(states[t], events[t].request);
    } else {
      StartsUntouched(w, states[t], events[t], states[t + 1]);
    }
  }

  /** Every start of a run was committed by one of its steps. */
  lemma {:induction false} StartWasCommitted(w: World, states: seq<Db>, events: seq<Event>, k: nat, n: nat) returns (t: nat)
    requires IsRun(w, states, events) && k < |states| && n < |states[k].starts|
    ensures t < k && CommitsStart(w, states, events, t, n) && states[t + 1].starts[n] == states[k].starts[n]
  {
    StepAddsStart(w, states, events, k - 1);
    if n < |states[k - 1].starts| {
      t := StartWasCommitted(w, states, events, k - 1, n);
    } else {
      t := k - 1;
    }
  }

  lemma {:induction false} StartsGrow(w: World, states: seq<Db>, events: seq<Event>, s: nat, t: nat)
    requires IsRun(w, states, events) && s <= t < |states|
    ensures |states[s].starts| <= |states[t].starts|
    decreases t
  {
    if s < t {
      StartsGrow(w, states, events, s, t - 1);
      StepAddsStart(w, states, events, t - 1);
    }
  }

  lemma StartedHasLeft(w: World, states: seq<Db>, events: seq<Event>, t: nat, n: nat)
    requires IsRun(w, states, events) && CommitsStart(w, states, events, t, n) && events[t].request.kind == Operation
    ensures HasLeft(states[t + 1], events[t].request.jobId) && states[t + 1].inFlight == states[t].inFlight
  {
    assert StepAt(w, states, events, t);
    WrittenJob(w, states[t], events[t].request);
    WrittenFields(states[t], events[t].request);
  }

  /**
    In every run, whatever its starts: the second of two starts of one operation job is a delayed write whose request
    was already in flight when the first was committed, and the two share no approval.
   */
  lemma SecondStartWasInFlight(w: World, states: seq<Db>, events: seq<Event>, k: nat, m: nat, n: nat) returns (s: nat, t: nat)
    requires IsRun(w, states, events) && k < |states| && m < n < |states[k].starts|
    requires var p, q := states[k].starts[m].request, states[k].starts[n].request;
             p.kind == q.kind == Operation && p.jobId == q.jobId
    ensures s < t < k && CommitsStart(w, states, events, s, m) && CommitsStart(w, states, events, t, n)
    ensures events[t] == Write(states[k].starts[n].request) && states[k].starts[n].request in states[s].inFlight
    ensures Elems(states[k].starts[m].request.approvals) !! Elems(states[k].starts[n].request.approvals)
  {
    s := StartWasCommitted(w, states, events, k, m);
    t := StartWasCommitted(w, states, events, k, n);
    if t < s {
      StartsGrow(w, states, events, t + 1, s);
    }
    var jobId := events[s].request.jobId;
    StartedHasLeft(w, states, events, s, m);
    RequestsAreOlder(w, states, events, s + 1, t, jobId);
    RunNoNewRequest(w, states, events, t, jobId);
    assert StepAt(w, states, events, t);
    NoApprovalSpentTwice(w, states, events, k, m, n);
  }
}
