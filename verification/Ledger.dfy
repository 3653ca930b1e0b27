/**
  What every step of the control plane keeps about approvals, plans and starts. A step is one atomic block of
  a handler; the two job start paths also come split into their checks and their guarded writes
  (main.py:1845-1862, 4644-4667, 4742-4766).
 */
module Ledger {
  import opened Ordering
  import opened Json
  import opened Tables
  import Risk

  // ---- What a step may change -------------------------------------------------------------------

  /** Everything of a ChangeSet but its state, its preview and its stored plan text. */
  predicate SameIdentity(x: Changeset, y: Changeset) {
    y == x.(plan := y.plan, preview := y.preview, state := y.state)
  }

  predicate SameGrant(x: Approval, y: Approval) {
    y == x.(status := y.status, consumedAt := y.consumedAt)
  }

  /** ChangeSets stay; approvals stay, and only a granted one changes. */
  ghost predicate Kept(a: Db, b: Db) {
    && (forall id | id in a.changesets :: id in b.changesets && SameIdentity(a.changesets[id], b.changesets[id]))
    && (forall i | i in a.approvals :: i in b.approvals && SameGrant(a.approvals[i], b.approvals[i]))
    && (forall i | i in a.approvals && a.approvals[i].status != Granted :: b.approvals[i] == a.approvals[i])
    && a.now <= b.now && a.generation <= b.generation && a.inFlight <= b.inFlight
  }

  /** Only a ChangeSet that needs approval waits for it or has it. */
  predicate StateOk(c: Changeset) {
    c.state == AwaitingApproval || c.state == Approved ==> c.approvalRequired
  }

  /** What planning fixes about a ChangeSet. */
  predicate ChangesetOk(w: World, c: Changeset, generation: int) {
    && c.planHash == w.hash(c.planned) && c.approvalRequired == Risk.ApprovalRequired(c.risk) && c.generation <= generation
    && StateOk(c)
  }

  /** An approval is of an existing ChangeSet that needs it, by somebody other than the requester. */
  predicate GrantOk(w: World, d: Db, i: string)
    requires i in d.approvals
  {
    var a := d.approvals[i];
    && a.changesetId in d.changesets
    && var c := d.changesets[a.changesetId];
       && c.approvalRequired && a.planHash == c.planHash && a.generation == c.generation && a.approver != c.requestedBy
       && (c.expiresAt != 0 ==> a.expiresAt <= c.expiresAt)
       && a.mac == MacOf(w, i, a) && (a.status == Consumed <==> a.consumedAt.Some?)
  }

  /** The approvals of a request are a quorum of different approvers for its ChangeSet. */
  ghost predicate Quorate(d: Db, p: Prepared) {
    && p.changesetId in d.changesets && |p.approvals| == Quorum(d.changesets[p.changesetId])
    && (forall n | 0 <= n < |p.approvals| :: p.approvals[n] in d.approvals && d.approvals[p.approvals[n]].changesetId == p.changesetId)
    && (forall n, m | 0 <= n < m < |p.approvals| :: d.approvals[p.approvals[n]].approver != d.approvals[p.approvals[m]].approver)
  }

  /** The ticket carries the plan that was hashed, and the target was as planned. */
  ghost predicate PlanBound(w: World, d: Db, p: Prepared)
    requires p.changesetId in d.changesets
  {
    && p.ticket.changesetId == p.changesetId && p.ticket.planHash == d.changesets[p.changesetId].planHash
    && (CollisionFree(w) && p.kind != Provision ==> AsPlanned(p, d.changesets[p.changesetId].planned))
  }

  predicate AsPlanned(p: Prepared, planned: Json) {
    Equivalent(p.ticket.plan, planned) && Equivalent(p.snapshot, Get(planned, "target_snapshot"))
  }

  /** When the checks were made, and under which policy. */
  ghost predicate Timely(w: World, d: Db, p: Prepared)
    requires Quorate(d, p)
  {
    && p.generation == d.changesets[p.changesetId].generation
    && (forall n | 0 <= n < |p.approvals| :: p.readAt <= d.approvals[p.approvals[n]].expiresAt)
    && (CollisionFree(w) && p.kind == Operation ==> p.ticket.issuedAt <= p.readAt <= p.ticket.expiresAt <= p.ticket.issuedAt + TICKET_SECONDS)
  }

  ghost predicate Backed(w: World, d: Db, p: Prepared) {
    Quorate(d, p) && PlanBound(w, d, p) && Timely(w, d, p) && p.readAt <= d.now && p.generation <= d.generation
  }

  // ---- The invariant ----------------------------------------------------------------------------

  predicate IsSpent(d: Db, i: string) {
    i in d.approvals && d.approvals[i].status == Consumed
  }

  ghost predicate Disjoint(s: Start, t: Start) {
    forall i | i in s.request.approvals :: i !in t.request.approvals
  }

  ghost predicate StartsOk(w: World, d: Db) {
    && (forall k | 0 <= k < |d.starts| :: Backed(w, d, d.starts[k].request))
    && (forall k | 0 <= k < |d.starts| :: forall i | i in d.starts[k].request.approvals :: IsSpent(d, i))
    && (forall k, l | 0 <= k < l < |d.starts| :: Disjoint(d.starts[k], d.starts[l]))
    && (forall i | IsSpent(d, i) :: exists k :: 0 <= k < |d.starts| && i in d.starts[k].request.approvals)
  }

  ghost predicate RowsOk(w: World, d: Db) {
    && (forall id | id in d.changesets :: ChangesetOk(w, d.changesets[id], d.generation))
    && (forall i | i in d.approvals :: GrantOk(w, d, i))
  }

  ghost predicate Sound(w: World, d: Db) {
    RowsOk(w, d) && StartsOk(w, d) && forall p | p in d.inFlight :: Backed(w, d, p)
  }

  // ---- A step of the ledger ---------------------------------------------------------------------

  ghost predicate NoStart(a: Db, b: Db) {
    b.starts == a.starts && forall i | IsSpent(b, i) :: IsSpent(a, i)
  }

  /** One start: exactly the approvals of its request are spent, and all of them were unspent. */
  ghost predicate OneStart(w: World, a: Db, b: Db, s: Start) {
    && b.starts == a.starts + [s] && Backed(w, a, s.request)
    && (forall i | i in s.request.approvals :: i in a.approvals && a.approvals[i].status == Granted && IsSpent(b, i))
    && (forall i | IsSpent(b, i) :: IsSpent(a, i) || i in s.request.approvals)
  }

  ghost predicate LedgerStep(w: World, a: Db, b: Db) {
    && Kept(a, b) && RowsOk(w, b)
    && (forall p | p in b.inFlight :: p in a.inFlight || Backed(w, a, p))
    && (NoStart(a, b) || (b.starts != [] && OneStart(w, a, b, b.starts[|b.starts| - 1])))
  }

  lemma BackedStays(w: World, a: Db, b: Db, p: Prepared)
    requires Kept(a, b) && Backed(w, a, p)
    ensures Backed(w, b, p)
  {
    assert SameIdentity(a.changesets[p.changesetId], b.changesets[p.changesetId]);
    assert forall n | 0 <= n < |p.approvals| :: SameGrant(a.approvals[p.approvals[n]], b.approvals[p.approvals[n]]);
  }

  lemma StartsStay(w: World, a: Db, b: Db)
    requires Kept(a, b) && StartsOk(w, a) && NoStart(a, b)
    ensures StartsOk(w, b)
  {
    forall k | 0 <= k < |b.starts|
      ensures Backed(w, b, b.starts[k].request)
    {
      BackedStays(w, a, b, a.starts[k].request);
    }
  }

  lemma AddedIsBacked(w: World, a: Db, b: Db, s: Start, k: nat)
    requires Kept(a, b) && StartsOk(w, a) && OneStart(w, a, b, s) && k < |b.starts|
    ensures Backed(w, b, b.starts[k].request) && forall i | i in b.starts[k].request.approvals :: IsSpent(b, i)
  {
    BackedStays(w, a, b, b.starts[k].request);
    if k < |a.starts| {
      assert b.starts[k] == a.starts[k];
    }
  }

  lemma AddedIsDisjoint(w: World, a: Db, b: Db, s: Start, k: nat, l: nat)
    requires StartsOk(w, a) && OneStart(w, a, b, s) && k < l < |b.starts|
    ensures Disjoint(b.starts[k], b.starts[l])
  {
    assert b.starts[k] == a.starts[k];
    if l < |a.starts| {
      assert Disjoint(a.starts[k], a.starts[l]);
    } else {
      assert forall i | i in a.starts[k].request.approvals :: IsSpent(a, i);
    }
  }

  lemma AddedSpends(w: World, a: Db, b: Db, s: Start, i: string)
    requires StartsOk(w, a) && OneStart(w, a, b, s) && IsSpent(b, i)
    ensures exists k :: 0 <= k < |b.starts| && i in b.starts[k].request.approvals
  {
    if IsSpent(a, i) {
      var k :| 0 <= k < |a.starts| && i in a.starts[k].request.approvals;
      assert b.starts[k] == a.starts[k];
    } else {
      assert b.starts[|a.starts|] == s;
    }
  }

  lemma StartAdded(w: World, a: Db, b: Db, s: Start)
    requires Kept(a, b) && StartsOk(w, a) && OneStart(w, a, b, s)
    ensures StartsOk(w, b)
  {
    forall k | 0 <= k < |b.starts|
      ensures Backed(w, b, b.starts[k].request) && forall i | i in b.starts[k].request.approvals :: IsSpent(b, i)
    {
      AddedIsBacked(w, a, b, s, k);
    }
    forall k, l | 0 <= k < l < |b.starts|
      ensures Disjoint(b.starts[k], b.starts[l])
    {
      AddedIsDisjoint(w, a, b, s, k, l);
    }
    forall i | IsSpent(b, i)
      ensures exists k :: 0 <= k < |b.starts| && i in b.starts[k].request.approvals
    {
      AddedSpends(w, a, b, s, i);
    }
  }

  lemma SoundStep(w: World, a: Db, b: Db)
    requires Sound(w, a) && LedgerStep(w, a, b)
    ensures Sound(w, b)
  {
    if NoStart(a, b) {
      StartsStay(w, a, b);
    } else {
      StartAdded(w, a, b, b.starts[|b.starts| - 1]);
    }
    forall p | p in b.inFlight
      ensures Backed(w, b, p)
    {
      BackedStays(w, a, b, p);
    }
  }

  // ---- Consequences of the invariant --------------------------------------------------------------

  ghost function SpentOn(d: Db, id: string): set<string> {
    set i | i in d.approvals && d.approvals[i].changesetId == id && d.approvals[i].status == Consumed
  }

  ghost function StartsTo(starts: seq<Start>, k: nat, id: string): nat
    requires k <= |starts|
  {
    if k == 0 then 0 else StartsTo(starts, k - 1, id) + if starts[k - 1].request.changesetId == id then 1 else 0
  }

  /** How often a ChangeSet was started. */
  ghost function StartsOf(starts: seq<Start>, id: string): nat {
    StartsTo(starts, |starts|, id)
  }

  /** The approvals that the first `k` starts spent on a ChangeSet. */
  ghost function SpentBy(starts: seq<Start>, k: nat, id: string): set<string>
    requires k <= |starts|
  {
    if k == 0 then {}
    else SpentBy(starts, k - 1, id) + if starts[k - 1].request.changesetId == id then Elems(starts[k - 1].request.approvals) else {}
  }

  lemma {:induction false} SpentByAre(starts: seq<Start>, k: nat, id: string, i: string)
    requires k <= |starts|
    ensures i in SpentBy(starts, k, id) <==> exists n :: 0 <= n < k && starts[n].request.changesetId == id && i in starts[n].request.approvals
  {
    if k > 0 {
      SpentByAre(starts, k - 1, id, i);
    }
  }

  lemma QuorateDistinct(d: Db, p: Prepared)
    requires Quorate(d, p)
    ensures |Elems(p.approvals)| == Quorum(d.changesets[p.changesetId])
  {
    assert Distinct(p.approvals);
    DistinctCardinality(p.approvals);
  }

  /** A start spends none of the approvals that earlier ones spent. */
  lemma SpentAnew(w: World, d: Db, k: nat, id: string)
    requires StartsOk(w, d) && k < |d.starts|
    ensures SpentBy(d.starts, k, id) !! Elems(d.starts[k].request.approvals)
  {
    forall i | i in SpentBy(d.starts, k, id)
      ensures i !in d.starts[k].request.approvals
    {
      SpentByAre(d.starts, k, id, i);
      var n :| 0 <= n < k && d.starts[n].request.changesetId == id && i in d.starts[n].request.approvals;
      assert Disjoint(d.starts[n], d.starts[k]);
    }
  }

  lemma UnionSize<T>(x: set<T>, y: set<T>)
    requires x !! y
    ensures |x + y| == |x| + |y|
  {
  }

  /** `quorum` added up `count` times. */
  ghost function Times(quorum: nat, count: nat): nat {
    if count == 0 then 0 else Times(quorum, count - 1) + quorum
  }

  lemma {:induction false} TimesIsProduct(quorum: nat, count: nat)
    ensures Times(quorum, count) == quorum * count
  {
    if count > 0 {
      TimesIsProduct(quorum, count - 1);
    }
  }

  /** The `n`-th start, if it is of this ChangeSet, spends a quorum of approvals not spent before. */
  ghost predicate SpendsAnew(starts: seq<Start>, n: nat, id: string, quorum: nat)
    requires n < |starts|
  {
    starts[n].request.changesetId == id ==>
      |Elems(starts[n].request.approvals)| == quorum && SpentBy(starts, n, id) !! Elems(starts[n].request.approvals)
  }

  lemma {:induction false} SpentByCount(starts: seq<Start>, k: nat, id: string, quorum: nat)
    requires k <= |starts|
    requires forall n {:trigger SpendsAnew(starts, n, id, quorum)} | 0 <= n < |starts| :: SpendsAnew(starts, n, id, quorum)
    ensures |SpentBy(starts, k, id)| == Times(quorum, StartsTo(starts, k, id))
  {
    if k > 0 {
      SpentByCount(starts, k - 1, id, quorum);
      CountNext(starts, k - 1, id, quorum);
    }
  }

  lemma CountNext(starts: seq<Start>, n: nat, id: string, quorum: nat)
    requires n < |starts| && SpendsAnew(starts, n, id, quorum) && |SpentBy(starts, n, id)| == Times(quorum, StartsTo(starts, n, id))
    ensures |SpentBy(starts, n + 1, id)| == Times(quorum, StartsTo(starts, n + 1, id))
  {
    SpentByNext(starts, n, id, quorum);
    StartsToNext(starts, n, id);
  }

  lemma StartsToNext(starts: seq<Start>, n: nat, id: string)
    requires n < |starts|
    ensures StartsTo(starts, n + 1, id) == StartsTo(starts, n, id) + if starts[n].request.changesetId == id then 1 else 0
  {
  }

  lemma SpentByNext(starts: seq<Start>, n: nat, id: string, quorum: nat)
    requires n < |starts| && SpendsAnew(starts, n, id, quorum)
    ensures |SpentBy(starts, n + 1, id)| == |SpentBy(starts, n, id)| + if starts[n].request.changesetId == id then quorum else 0
  {
    var before, ids := SpentBy(starts, n, id), Elems(starts[n].request.approvals);
    if starts[n].request.changesetId == id {
      UnionSize(before, ids);
      assert SpentBy(starts, n + 1, id) == before + ids;
    } else {
      assert SpentBy(starts, n + 1, id) == before;
    }
  }

  /** Consumed approvals are accounted for: a full quorum for every start, and nothing else. */
  lemma ConsumedPerStart(w: World, d: Db, id: string)
    requires Sound(w, d) && id in d.changesets
    ensures |SpentOn(d, id)| == Quorum(d.changesets[id]) * StartsOf(d.starts, id)
  {
    var quorum := Quorum(d.changesets[id]);
    forall n | 0 <= n < |d.starts|
      ensures SpendsAnew(d.starts, n, id, quorum)
    {
      QuorateDistinct(d, d.starts[n].request);
      SpentAnew(w, d, n, id);
    }
    SpentByCount(d.starts, |d.starts|, id, quorum);
    TimesIsProduct(quorum, StartsOf(d.starts, id));
    SpentOnIsSpentBy(w, d, id);
  }

  lemma SpentOnIsSpentBy(w: World, d: Db, id: string)
    requires StartsOk(w, d)
    ensures SpentOn(d, id) == SpentBy(d.starts, |d.starts|, id)
  {
    forall i
      ensures i in SpentOn(d, id) <==> i in SpentBy(d.starts, |d.starts|, id)
    {
      SpentByAre(d.starts, |d.starts|, id, i);
      if i in SpentOn(d, id) {
        assert IsSpent(d, i);
        var k :| 0 <= k < |d.starts| && i in d.starts[k].request.approvals;
        assert Quorate(d, d.starts[k].request);
      }
      if n :| 0 <= n < |d.starts| && d.starts[n].request.changesetId == id && i in d.starts[n].request.approvals {
        assert IsSpent(d, i) && Quorate(d, d.starts[n].request);
      }
    }
  }
}
