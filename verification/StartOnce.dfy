/**
  How often a ChangeSet that needs approval starts, by any path: at most once, unless a live preview of it ends after
  it was approved. That end writes PREVIEWED whatever the state (main.py:2541-2544), and what is PREVIEWED can be
  approved again.
 */
module StartOnce {
  import opened Ordering
  import opened Tables
  import opened Handlers
  import opened Ledger
  import opened Runs
  import opened Safety
  import opened Policy

  /** The states before approval. */
  predicate BeforeApproval(s: State) {
    s.Planned? || s.Previewed? || s.AwaitingApproval?
  }

  /** No approval that is granted from now on can count: the ChangeSet is of an older policy, or past its expiry. */
  predicate Over(d: Db, c: Changeset) {
    c.generation < d.generation || (c.expiresAt != 0 && c.expiresAt < d.now)
  }

  /** The end of a live preview of this ChangeSet. */
  predicate EndsPreview(e: Event, id: string) {
    e.Finish? && e.id == id && e.state == Previewed
  }

  /** Live previews of the ChangeSet that end among the first `k` steps find it not yet approved, or over. */
  ghost predicate PreviewsEndInTime(states: seq<Db>, events: seq<Event>, k: nat, id: string)
    requires |states| == |events| + 1 && k < |states|
  {
    forall n | 0 <= n < k && EndsPreview(events[n], id) :: EndsInTime(states[n], id)
  }

  predicate EndsInTime(d: Db, id: string) {
    id in d.changesets && (BeforeApproval(d.changesets[id].state) || Over(d, d.changesets[id]))
  }

  // ---- The approvals a ChangeSet can still spend --------------------------------------------------------

  predicate Live(d: Db, id: string, i: string) {
    i in d.approvals && d.approvals[i].changesetId == id && d.approvals[i].status == Granted && d.now <= d.approvals[i].expiresAt
  }

  ghost function LiveIds(d: Db, id: string): set<string> {
    set i | i in d.approvals && Live(d, id, i)
  }

  ghost predicate OneEach(d: Db, id: string) {
    forall i, j | Live(d, id, i) && Live(d, id, j) && i != j :: ApproverOf(d, i) != ApproverOf(d, j)
  }

  ghost predicate Unrequested(d: Db, id: string) {
    && (forall p | p in d.inFlight :: p.changesetId != id)
    && (forall s | s in d.starts :: s.request.changesetId != id)
  }

  /** Nothing was checked or started, and there are not enough approvals for it. */
  ghost predicate Unstarted(d: Db, id: string, quorum: nat) {
    Unrequested(d, id) && OneEach(d, id) && |LiveIds(d, id)| < quorum
  }

  /** `limit` holds every approval of the ChangeSet that can be spent, is selected by a request in flight, or was spent. */
  ghost predicate Within(d: Db, id: string, limit: set<string>) {
    && LiveIds(d, id) <= limit
    && (forall p | p in d.inFlight && p.changesetId == id :: Elems(p.approvals) <= limit)
    && (forall s | s in d.starts && s.request.changesetId == id :: Elems(s.request.approvals) <= limit)
  }

  ghost predicate Limited(d: Db, id: string, quorum: nat) {
    exists limit :: |limit| <= quorum && Within(d, id, limit)
  }

  /** The ChangeSet has approvals for one start at most. */
  ghost predicate OneQuorum(d: Db, id: string)
    requires id in d.changesets
  {
    var c := d.changesets[id];
    if BeforeApproval(c.state) && !Over(d, c) then Unstarted(d, id, Required(c)) else Limited(d, id, Required(c))
  }

  // ---- Steps that add nothing ---------------------------------------------------------------------------

  ghost predicate AddsNothing(a: Db, b: Db, id: string) {
    && (forall i | Live(b, id, i) :: Live(a, id, i) && ApproverOf(a, i) == ApproverOf(b, i))
    && (forall p | p in b.inFlight && p.changesetId == id :: p in a.inFlight)
    && (forall s | s in b.starts && s.request.changesetId == id :: s in a.starts)
  }

  lemma UnstartedStays(a: Db, b: Db, id: string, quorum: nat)
    requires AddsNothing(a, b, id) && Unstarted(a, id, quorum)
    ensures Unstarted(b, id, quorum)
  {
    SubsetCardinality(LiveIds(b, id), LiveIds(a, id));
  }

  lemma LimitedStays(a: Db, b: Db, id: string, quorum: nat)
    requires AddsNothing(a, b, id) && Limited(a, id, quorum)
    ensures Limited(b, id, quorum)
  {
    var limit :| |limit| <= quorum && Within(a, id, limit);
    assert Within(b, id, limit);
  }

  lemma UnstartedIsLimited(d: Db, id: string, quorum: nat)
    requires Unstarted(d, id, quorum)
    ensures Limited(d, id, quorum)
  {
    assert Within(d, id, LiveIds(d, id));
  }

  lemma OneQuorumIsLimited(d: Db, id: string)
    requires id in d.changesets && OneQuorum(d, id)
    ensures Limited(d, id, Required(d.changesets[id]))
  {
    if BeforeApproval(d.changesets[id].state) && !Over(d, d.changesets[id]) {
      UnstartedIsLimited(d, id, Required(d.changesets[id]));
    }
  }

  lemma AddingNothingKeeps(a: Db, b: Db, id: string)
    requires id in a.changesets && id in b.changesets && SameIdentity(a.changesets[id], b.changesets[id])
    requires AddsNothing(a, b, id) && OneQuorum(a, id)
    requires BeforeApproval(b.changesets[id].state) && !Over(b, b.changesets[id]) ==> BeforeApproval(a.changesets[id].state) && !Over(a, a.changesets[id])
    ensures OneQuorum(b, id)
  {
    var quorum := Required(a.changesets[id]);
    if BeforeApproval(b.changesets[id].state) && !Over(b, b.changesets[id]) {
      UnstartedStays(a, b, id, quorum);
    } else {
      OneQuorumIsLimited(a, id);
      LimitedStays(a, b, id, quorum);
    }
  }

  /** The step neither approves this ChangeSet nor handles a start of it. */
  predicate LeavesAlone(e: Event, id: string) {
    && (e.Approve? ==> e.id != id)
    && (e.Read? || e.Write? || e.Begin? ==> e.request.changesetId != id)
  }

  lemma NoNewLive(w: World, a: Db, e: Event, b: Db, id: string, i: string)
    requires Commits(w, a, e, b) && Kept(a, b) && (e.Approve? ==> e.id != id) && Live(b, id, i)
    ensures Live(a, id, i) && ApproverOf(a, i) == ApproverOf(b, i)
  {
    if !e.Approve? {
      ApprovalsUntouched(w, a, e, b);
    }
    assert i in a.approvals && SameGrant(a.approvals[i], b.approvals[i]);
  }

  lemma NoNewRequests(w: World, a: Db, e: Event, b: Db, id: string)
    requires Commits(w, a, e, b) && LeavesAlone(e, id)
    ensures forall p | p in b.inFlight && p.changesetId == id :: p in a.inFlight
    ensures forall s | s in b.starts && s.request.changesetId == id :: s in a.starts
  {
    if !e.Read? {
      RequestsUntouched(w, a, e, b);
    }
    if e.Write? || e.Begin? {
      WrittenFields(a, e.request);
    } else {
      StartsUntouched(w, a, e, b);
    }
  }

  lemma LeavingAloneAddsNothing(w: World, a: Db, e: Event, b: Db, id: string)
    requires Commits(w, a, e, b) && Kept(a, b) && LeavesAlone(e, id)
    ensures AddsNothing(a, b, id)
  {
    forall i | Live(b, id, i)
      ensures Live(a, id, i) && ApproverOf(a, i) == ApproverOf(b, i)
    {
      NoNewLive(w, a, e, b, id, i);
    }
    NoNewRequests(w, a, e, b, id);
  }

  // ---- What becomes of a ChangeSet's state --------------------------------------------------------------

  predicate MovesJob(e: Event) {
    e.FinishJob? || e.Move? || e.Abandon?
  }

  lemma MovedState(a: Db, jobId: string, to: JobState, id: string)
    requires Movable(a, jobId) && id in a.changesets
    ensures var b := Moved(a, jobId, to);
            && id in b.changesets
            && (b.changesets[id].state == a.changesets[id].state || b.changesets[id].state == Executed || b.changesets[id].state == Failed)
  {
  }

  predicate RunOut(s: State) {
    s == Expired || s == StalePolicy
  }

  /** A ChangeSet comes back before approval only by the end of a live preview; it expires or goes stale only if it is over. */
  ghost predicate StateMoves(a: Db, e: Event, b: Db, id: string)
    requires id in a.changesets && id in b.changesets
  {
    var s, t := a.changesets[id].state, b.changesets[id].state;
    && (BeforeApproval(t) ==> BeforeApproval(s) || EndsPreview(e, id))
    && (RunOut(t) ==> t == s || Over(b, b.changesets[id]))
  }

  lemma JobMoveStates(w: World, a: Db, e: Event, b: Db, id: string)
    requires Commits(w, a, e, b) && id in a.changesets && MovesJob(e)
    ensures id in b.changesets && StateMoves(a, e, b, id)
  {
    if e.Move? || e.Abandon? {
      MovedState(a, e.jobId, if e.Move? then e.to else JobFailed, id);
    }
  }

  lemma ExpiryStates(w: World, a: Db, e: Event, b: Db, id: string)
    requires Commits(w, a, e, b) && id in a.changesets && e.Expire?
    ensures id in b.changesets && StateMoves(a, e, b, id)
  {
  }

  lemma PreviewStates(w: World, a: Db, e: Event, b: Db, id: string)
    requires Commits(w, a, e, b) && id in a.changesets && (e.Show? || e.RequestApproval?)
    ensures id in b.changesets && StateMoves(a, e, b, id)
  {
  }

  lemma FinishStates(w: World, a: Db, e: Event, b: Db, id: string)
    requires Commits(w, a, e, b) && id in a.changesets && e.Finish?
    ensures id in b.changesets && StateMoves(a, e, b, id)
  {
  }

  lemma DecisionStates(w: World, a: Db, e: Event, b: Db, id: string)
    requires Commits(w, a, e, b) && id in a.changesets && (e.Approve? || e.Reject? || e.Cancel?)
    ensures id in b.changesets && StateMoves(a, e, b, id)
  {
  }

  lemma BumpStates(w: World, a: Db, e: Event, b: Db, id: string)
    requires RowsOk(w, a) && Commits(w, a, e, b) && id in a.changesets && e.Bump?
    ensures id in b.changesets && StateMoves(a, e, b, id)
  {
    assert ChangesetOk(w, a.changesets[id], a.generation);
  }

  lemma StartStates(w: World, a: Db, e: Event, b: Db, id: string)
    requires Commits(w, a, e, b) && id in a.changesets && (e.Write? || e.Begin?)
    ensures id in b.changesets && StateMoves(a, e, b, id)
  {
    WrittenFields(a, e.request);
  }

  lemma OtherStates(w: World, a: Db, e: Event, b: Db, id: string)
    requires Commits(w, a, e, b) && id in a.changesets
    requires e.Tick? || e.Environment? || e.Plan? || e.AddJob? || e.Authorize? || e.Read?
    ensures id in b.changesets && StateMoves(a, e, b, id)
  {
  }

  lemma StepMovesState(w: World, a: Db, e: Event, b: Db, id: string)
    requires RowsOk(w, a) && Commits(w, a, e, b) && id in a.changesets
    ensures id in b.changesets && StateMoves(a, e, b, id)
  {
    if e.Expire? {
      ExpiryStates(w, a, e, b, id);
    } else if e.Finish? {
      FinishStates(w, a, e, b, id);
    } else if e.Show? || e.RequestApproval? {
      PreviewStates(w, a, e, b, id);
    } else if e.Approve? || e.Reject? || e.Cancel? {
      DecisionStates(w, a, e, b, id);
    } else if MovesJob(e) {
      JobMoveStates(w, a, e, b, id);
    } else if e.Bump? {
      BumpStates(w, a, e, b, id);
    } else if e.Write? || e.Begin? {
      StartStates(w, a, e, b, id);
    } else {
      OtherStates(w, a, e, b, id);
    }
  }

  lemma QuietKeeps(w: World, a: Db, e: Event, b: Db, id: string)
    requires RowsOk(w, a) && Commits(w, a, e, b) && Kept(a, b) && LeavesAlone(e, id)
    requires id in a.changesets && OneQuorum(a, id) && (EndsPreview(e, id) ==> EndsInTime(a, id))
    ensures id in b.changesets && OneQuorum(b, id)
  {
    LeavingAloneAddsNothing(w, a, e, b, id);
    StepMovesState(w, a, e, b, id);
    assert SameIdentity(a.changesets[id], b.changesets[id]);
    AddingNothingKeeps(a, b, id);
  }

  // ---- An approval --------------------------------------------------------------------------------------

  ghost function ApproversOf(d: Db, ids: set<string>): set<string> {
    set i | i in ids :: ApproverOf(d, i)
  }

  lemma OneApproverMore(d: Db, ids: set<string>, x: string)
    requires x in ids
    ensures ApproversOf(d, ids) == ApproversOf(d, ids - {x}) + {ApproverOf(d, x)}
  {
    forall n | n in ApproversOf(d, ids)
      ensures n in ApproversOf(d, ids - {x}) + {ApproverOf(d, x)}
    {
      var i :| i in ids && ApproverOf(d, i) == n;
      if i != x {
        assert i in ids - {x};
      }
    }
  }

  lemma {:induction false} ApproverCount(d: Db, ids: set<string>)
    requires forall i, j | i in ids && j in ids && i != j :: ApproverOf(d, i) != ApproverOf(d, j)
    ensures |ApproversOf(d, ids)| == |ids|
  {
    if ids != {} {
      var x :| x in ids;
      OneApproverMore(d, ids, x);
      ApproverCount(d, ids - {x});
      assert ApproverOf(d, x) !in ApproversOf(d, ids - {x});
    }
  }

  /** Among approvals of one ChangeSet, each of another approver, there are no more than approvers. */
  lemma NoMoreThanApprovers(d: Db, id: string)
    requires id in d.changesets && OneEach(d, id)
    requires forall i | Live(d, id, i) :: d.approvals[i].planHash == d.changesets[id].planHash
    ensures |LiveIds(d, id)| <= |Approvers(d, id)|
  {
    var names := ApproversOf(d, LiveIds(d, id));
    ApproverCount(d, LiveIds(d, id));
    forall n | n in names
      ensures n in Approvers(d, id)
    {
      var i :| i in LiveIds(d, id) && ApproverOf(d, i) == n;
      assert Counts(d, id, i);
    }
    SubsetCardinality(names, Approvers(d, id));
  }

  lemma LiveHaveThePlan(w: World, d: Db, id: string)
    requires RowsOk(w, d) && id in d.changesets
    ensures forall i | Live(d, id, i) :: d.approvals[i].planHash == d.changesets[id].planHash
  {
    forall i | Live(d, id, i)
      ensures d.approvals[i].planHash == d.changesets[id].planHash
    {
      assert GrantOk(w, d, i);
    }
  }

  /** One approval more, by somebody who has none. */
  ghost predicate AddsApproval(a: Db, b: Db, id: string, i: string, x: Approval) {
    && i !in a.approvals && b.approvals == a.approvals[i := x] && b.now == a.now && b.generation == a.generation
    && b.inFlight == a.inFlight && b.starts == a.starts
    && id in a.changesets && id in b.changesets && SameIdentity(a.changesets[id], b.changesets[id])
    && x.approver !in Approvers(a, id) && (a.changesets[id].expiresAt != 0 ==> x.expiresAt <= a.changesets[id].expiresAt)
    && b.changesets[id].state == if |Approvers(b, id)| >= Required(b.changesets[id]) then Approved else AwaitingApproval
  }

  lemma ApproveAdds(w: World, a: Db, e: Event, b: Db)
    requires Commits(w, a, e, b) && e.Approve?
    ensures AddsApproval(a, b, e.id, e.approvalId, NewApproval(w, a, e.id, e.approvalId, e.approver, e.ttl, e.nonce))
    ensures a.changesets[e.id].state == AwaitingApproval
  {
    var x := NewApproval(w, a, e.id, e.approvalId, e.approver, e.ttl, e.nonce);
    var added := a.(approvals := a.approvals[e.approvalId := x]);
    assert forall i :: Counts(b, e.id, i) <==> Counts(added, e.id, i);
    assert Approvers(b, e.id) == Approvers(added, e.id);
  }

  lemma LiveAfter(a: Db, b: Db, id: string, i: string, x: Approval)
    requires AddsApproval(a, b, id, i, x)
    ensures LiveIds(a, id) <= LiveIds(b, id) <= LiveIds(a, id) + {i}
    ensures Over(a, a.changesets[id]) && a.changesets[id].generation == a.generation ==> LiveIds(b, id) == LiveIds(a, id)
  {
  }

  lemma OneEachAfter(w: World, a: Db, b: Db, id: string, i: string, x: Approval)
    requires RowsOk(w, a) && AddsApproval(a, b, id, i, x) && OneEach(a, id)
    ensures OneEach(b, id)
  {
    LiveHaveThePlan(w, a, id);
    forall j | Live(b, id, j) && j != i
      ensures Live(a, id, j) && ApproverOf(b, j) == ApproverOf(a, j) && ApproverOf(b, j) != ApproverOf(b, i)
    {
      assert Counts(a, id, j);
    }
  }

  lemma ApprovalKeeps(w: World, a: Db, b: Db, id: string, i: string, x: Approval)
    requires RowsOk(w, a) && RowsOk(w, b) && AddsApproval(a, b, id, i, x) && Unstarted(a, id, Required(a.changesets[id]))
    ensures OneQuorum(b, id)
  {
    var quorum := Required(b.changesets[id]);
    LiveAfter(a, b, id, i, x);
    OneEachAfter(w, a, b, id, i, x);
    SubsetCardinality(LiveIds(b, id), LiveIds(a, id) + {i});
    if |Approvers(b, id)| >= quorum {
      assert Within(b, id, LiveIds(b, id));
    } else {
      LiveHaveThePlan(w, b, id);
      NoMoreThanApprovers(b, id);
      UnstartedIsLimited(b, id, quorum);
    }
  }

  lemma LateApprovalAddsNothing(a: Db, b: Db, id: string, i: string, x: Approval)
    requires AddsApproval(a, b, id, i, x) && Over(a, a.changesets[id]) && a.changesets[id].generation == a.generation
    ensures AddsNothing(a, b, id)
  {
    LiveAfter(a, b, id, i, x);
    forall j | Live(b, id, j)
      ensures Live(a, id, j) && ApproverOf(a, j) == ApproverOf(b, j)
    {
      assert j in LiveIds(b, id);
    }
  }

  lemma ApproveKeeps(w: World, a: Db, e: Event, b: Db)
    requires RowsOk(w, a) && RowsOk(w, b) && Commits(w, a, e, b) && e.Approve? && OneQuorum(a, e.id)
    ensures e.id in b.changesets && OneQuorum(b, e.id)
  {
    var x := NewApproval(w, a, e.id, e.approvalId, e.approver, e.ttl, e.nonce);
    ApproveAdds(w, a, e, b);
    if Over(a, a.changesets[e.id]) {
      LateApprovalAddsNothing(a, b, e.id, e.approvalId, x);
      AddingNothingKeeps(a, b, e.id);
    } else {
      ApprovalKeeps(w, a, b, e.id, e.approvalId, x);
    }
  }

  // ---- Starts ---------------------------------------------------------------------------------------------

  lemma SelectedAreLive(w: World, d: Db, p: Prepared, signature: string)
    requires ReadOk(w, d, p, signature)
    ensures p.changesetId in d.changesets && Elems(p.approvals) <= LiveIds(d, p.changesetId)
    ensures |Elems(p.approvals)| == Quorum(d.changesets[p.changesetId])
  {
    ReadFinds(w, d, p, signature);
    PicksAreQuorate(w, d, p);
    QuorateDistinct(d, p);
    forall i | i in p.approvals
      ensures Live(d, p.changesetId, i)
    {
      var n :| 0 <= n < |p.approvals| && p.approvals[n] == i;
      assert Spendable(d, p.approvals[n]);
    }
  }

  predicate StartsIt(e: Event, id: string) {
    (e.Read? || e.Write? || e.Begin?) && e.request.changesetId == id
  }

  lemma StartFields(w: World, a: Db, e: Event, b: Db, id: string)
    requires Commits(w, a, e, b) && StartsIt(e, id)
    ensures if e.Read? then b == a.(inFlight := a.inFlight + {e.request})
            else b.inFlight == a.inFlight && id in b.changesets && b.changesets[id].state == Executing
    ensures forall s | s in b.starts :: s in a.starts || s.request == e.request
    ensures e.Write? ==> e.request in a.inFlight
  {
    if e.Write? || e.Begin? {
      WrittenFields(a, e.request);
    }
  }

  /** What the step of a start has to spend: a quorum of live approvals, or what its request selected earlier. */
  ghost predicate Selects(a: Db, e: Event, id: string)
    requires id in a.changesets && StartsIt(e, id)
  {
    var p := e.request;
    if e.Write? then p in a.inFlight else Elems(p.approvals) <= LiveIds(a, id) && |Elems(p.approvals)| == Quorum(a.changesets[id])
  }

  lemma StartSelects(w: World, a: Db, e: Event, b: Db, id: string)
    requires Next(w, a, e, b) && StartsIt(e, id) && id in a.changesets
    ensures Selects(a, e, id)
  {
    if e.Write? {
      StartFields(w, a, e, b, id);
    } else {
      SelectedAreLive(w, a, e.request, e.signature);
    }
  }

  lemma SelectingIsStarted(a: Db, e: Event, id: string)
    requires id in a.changesets && StartsIt(e, id) && Selects(a, e, id) && a.changesets[id].approvalRequired
    ensures !Unstarted(a, id, Required(a.changesets[id]))
  {
    if !e.Write? {
      SubsetCardinality(Elems(e.request.approvals), LiveIds(a, id));
    }
  }

  lemma SelectingStaysLimited(a: Db, e: Event, b: Db, id: string, quorum: nat)
    requires id in a.changesets && StartsIt(e, id) && Selects(a, e, id) && Limited(a, id, quorum)
    requires forall i | Live(b, id, i) :: Live(a, id, i)
    requires b.inFlight == a.inFlight + if e.Read? then {e.request} else {}
    requires forall s | s in b.starts :: s in a.starts || s.request == e.request
    ensures Limited(b, id, quorum)
  {
    var limit :| |limit| <= quorum && Within(a, id, limit);
    assert Within(b, id, limit);
  }

  /** What the step of a start does to its ChangeSet. */
  ghost predicate StartMoves(a: Db, e: Event, b: Db, id: string)
    requires id in a.changesets
  {
    && StartsIt(e, id) && Selects(a, e, id)
    && (forall i | Live(b, id, i) :: Live(a, id, i))
    && b.inFlight == a.inFlight + (if e.Read? then {e.request} else {})
    && (forall s | s in b.starts :: s in a.starts || s.request == e.request)
    && id in b.changesets && SameIdentity(a.changesets[id], b.changesets[id])
    && (b.changesets[id].state == Executing || b == a.(inFlight := b.inFlight))
  }

  /** A start is handled only once there are approvals for it, and spends no others. */
  lemma StartMoveKeeps(a: Db, e: Event, b: Db, id: string)
    requires id in a.changesets && StartMoves(a, e, b, id) && a.changesets[id].approvalRequired && OneQuorum(a, id)
    ensures id in b.changesets && OneQuorum(b, id)
  {
    OneQuorumIsLimited(a, id);
    SelectingIsStarted(a, e, id);
    SelectingStaysLimited(a, e, b, id, Required(a.changesets[id]));
  }

  lemma NoneNewLive(w: World, a: Db, e: Event, b: Db, id: string)
    requires Commits(w, a, e, b) && Kept(a, b) && (e.Approve? ==> e.id != id)
    ensures forall i | Live(b, id, i) :: Live(a, id, i)
  {
    forall i | Live(b, id, i)
      ensures Live(a, id, i)
    {
      NoNewLive(w, a, e, b, id, i);
    }
  }

  lemma StartIsMove(w: World, a: Db, e: Event, b: Db, id: string)
    requires Commits(w, a, e, b) && Kept(a, b) && StartsIt(e, id) && id in a.changesets && Selects(a, e, id)
    ensures StartMoves(a, e, b, id)
  {
    StartFields(w, a, e, b, id);
    NoneNewLive(w, a, e, b, id);
    assert SameIdentity(a.changesets[id], b.changesets[id]);
  }

  lemma StartKeeps(w: World, a: Db, e: Event, b: Db, id: string)
    requires Next(w, a, e, b) && Kept(a, b) && StartsIt(e, id) && id in a.changesets && a.changesets[id].approvalRequired && OneQuorum(a, id)
    ensures id in b.changesets && OneQuorum(b, id)
  {
    StartSelects(w, a, e, b, id);
    StartIsMove(w, a, e, b, id);
    StartMoveKeeps(a, e, b, id);
  }

  // ---- Every step, every run ------------------------------------------------------------------------------

  lemma StepKeepsOneQuorum(w: World, a: Db, e: Event, b: Db, id: string)
    requires Invariant(w, a) && Next(w, a, e, b) && id in a.changesets && a.changesets[id].approvalRequired && OneQuorum(a, id)
    requires EndsPreview(e, id) ==> EndsInTime(a, id)
    ensures id in b.changesets && OneQuorum(b, id)
  {
    StepIsLedgerStep(w, a, e, b);
    if e.Approve? && e.id == id {
      ApproveKeeps(w, a, e, b);
    } else if StartsIt(e, id) {
      StartKeeps(w, a, e, b, id);
    } else {
      QuietKeeps(w, a, e, b, id);
    }
  }

  lemma NewIsUnstarted(w: World, a: Db, id: string, c: Changeset)
    requires Sound(w, a) && NewRow(w, a, id, c)
    ensures OneQuorum(WithChangeset(a, id, c), id)
  {
    var b := WithChangeset(a, id, c);
    forall i
      ensures !Live(b, id, i)
    {
      if i in a.approvals {
        assert GrantOk(w, a, i);
      }
    }
    assert LiveIds(b, id) == {};
    UnrequestedBefore(w, a, id);
    assert Unstarted(b, id, Required(c));
    UnstartedIsLimited(b, id, Required(c));
  }

  lemma UnrequestedBefore(w: World, a: Db, id: string)
    requires Sound(w, a) && id !in a.changesets
    ensures Unrequested(a, id)
  {
    forall p | p in a.inFlight
      ensures p.changesetId != id
    {
      assert Backed(w, a, p);
    }
    forall s | s in a.starts
      ensures s.request.changesetId != id
    {
      var n :| 0 <= n < |a.starts| && a.starts[n] == s;
      assert Backed(w, a, a.starts[n].request);
    }
  }

  lemma RunStepKeepsOneQuorum(w: World, states: seq<Db>, events: seq<Event>, k: nat, id: string)
    requires IsRun(w, states, events) && k < |events| && id in states[k].changesets && states[k].changesets[id].approvalRequired
    requires OneQuorum(states[k], id) && (EndsPreview(events[k], id) ==> EndsInTime(states[k], id))
    ensures id in states[k + 1].changesets && OneQuorum(states[k + 1], id)
  {
    RunKeepsInvariant(w, states, events, k);
    assert StepAt(w, states, events, k);
    StepKeepsOneQuorum(w, states[k], events[k], states[k + 1], id);
  }

  lemma RunStepAddsUnstarted(w: World, states: seq<Db>, events: seq<Event>, k: nat, id: string)
    requires IsRun(w, states, events) && k < |events| && id !in states[k].changesets && id in states[k + 1].changesets
    ensures OneQuorum(states[k + 1], id) && BeforeApproval(states[k + 1].changesets[id].state)
  {
    RunKeepsInvariant(w, states, events, k);
    RunStepPlans(w, states, events, k, id);
    RowOfPlan(w, states, events, k);
    assert StepAt(w, states, events, k);
    NewIsUnstarted(w, states[k], id, events[k].changeset);
  }

  lemma {:induction false} RunKeepsOneQuorum(w: World, states: seq<Db>, events: seq<Event>, k: nat, id: string)
    requires IsRun(w, states, events) && k < |states| && PreviewsEndInTime(states, events, k, id)
    requires id in states[k].changesets && states[k].changesets[id].approvalRequired
    ensures OneQuorum(states[k], id)
  {
    RunStepPlans(w, states, events, k - 1, id);
    if id in states[k - 1].changesets {
      RunKeepsOneQuorum(w, states, events, k - 1, id);
      RunStepKeepsOneQuorum(w, states, events, k - 1, id);
    } else {
      RunStepAddsUnstarted(w, states, events, k - 1, id);
    }
  }

  lemma SpentWithin(d: Db, id: string, limit: set<string>)
    requires Within(d, id, limit)
    ensures SpentBy(d.starts, |d.starts|, id) <= limit
  {
    forall i | i in SpentBy(d.starts, |d.starts|, id)
      ensures i in limit
    {
      SpentByAre(d.starts, |d.starts|, id, i);
      var n :| 0 <= n < |d.starts| && d.starts[n].request.changesetId == id && i in d.starts[n].request.approvals;
      assert d.starts[n] in d.starts && i in Elems(d.starts[n].request.approvals);
    }
  }

  lemma AtMostOne(quorum: nat, count: nat)
    requires quorum > 0 && quorum * count <= quorum
    ensures count <= 1
  {
  }

  /**
    In every run, a ChangeSet that needs approval starts at most once, whether by operation jobs, provider jobs or
    directly, if no live preview of it ends after it was approved; one that ends once the ChangeSet is over is harmless.
   */
  lemma StartsAtMostOnce(w: World, states: seq<Db>, events: seq<Event>, k: nat, id: string)
    requires IsRun(w, states, events) && k < |states| && PreviewsEndInTime(states, events, k, id)
    requires id in states[k].changesets && states[k].changesets[id].approvalRequired
    ensures StartsOf(states[k].starts, id) <= 1
  {
    var d := states[k];
    RunKeepsInvariant(w, states, events, k);
    RunKeepsOneQuorum(w, states, events, k, id);
    OneQuorumIsLimited(d, id);
    var limit :| |limit| <= Required(d.changesets[id]) && Within(d, id, limit);
    SpentWithin(d, id, limit);
    SpentOnIsSpentBy(w, d, id);
    SubsetCardinality(SpentOn(d, id), limit);
    ConsumedPerStart(w, d, id);
    AtMostOne(Required(d.changesets[id]), StartsOf(d.starts, id));
  }

  // ---- Expired and stale ChangeSets are over --------------------------------------------------------------

  lemma RunStepMovesState(w: World, states: seq<Db>, events: seq<Event>, k: nat, id: string)
    requires IsRun(w, states, events) && k < |events| && id in states[k].changesets
    ensures id in states[k + 1].changesets && SameIdentity(states[k].changesets[id], states[k + 1].changesets[id])
    ensures StateMoves(states[k], events[k], states[k + 1], id) && states[k].now <= states[k + 1].now && states[k].generation <= states[k + 1].generation
  {
    RunKeepsInvariant(w, states, events, k);
    StepKeeps(w, states, events, k);
    assert StepAt(w, states, events, k);
    StepMovesState(w, states[k], events[k], states[k + 1], id);
  }

  /** In every run, a ChangeSet that is expired or stale is over. */
  lemma {:induction false} RunOutIsOver(w: World, states: seq<Db>, events: seq<Event>, k: nat, id: string)
    requires IsRun(w, states, events) && k < |states| && id in states[k].changesets && RunOut(states[k].changesets[id].state)
    ensures Over(states[k], states[k].changesets[id])
  {
    if id in states[k - 1].changesets {
      RunStepMovesState(w, states, events, k - 1, id);
      if RunOut(states[k - 1].changesets[id].state) {
        RunOutIsOver(w, states, events, k - 1, id);
      }
    } else {
      RunStepAddsUnstarted(w, states, events, k - 1, id);
    }
  }
}
