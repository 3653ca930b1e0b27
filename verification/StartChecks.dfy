/**
  Everything that the checks of a start look at, in one place and said of the rows themselves: the plan, the policy, the
  targets, the approvals and the ticket (main.py:719-807, 3860-4022, 4500-4560, 4636-4660; tickets.py:18-57).
 */
module StartChecks {
  import opened Ordering
  import opened Json
  import opened Wrappers
  import opened Tables
  import opened Handlers
  import opened Runs
  import PlanHash
  import Risk

  /** The ChangeSet's stored plan still has its hash, and the job's, and holds the typed plan, which has its own hash. */
  predicate PlanIntact(w: World, d: Db, j: OperationJob, c: Changeset, typed: Json) {
    && w.hash(c.plan) == c.planHash && j.planHash == c.planHash
    && Equivalent(Get(Get(c.plan, "parameters"), "typed_plan"), typed)
    && typed.Obj? && Get(typed, "plan_hash") == Str(w.hash(Obj(PlanHash.Without(typed.fields, "plan_hash"))))
    && Get(typed, "plan_hash") != Str("") && j.typedHash == Get(typed, "plan_hash")
  }

  /** The target is as it was planned, and so is every further target of the typed plan that names its hash. */
  predicate TargetsAsPlanned(d: Db, c: Changeset, typed: Json) {
    && c.targetId in d.targets && Equivalent(d.targets[c.targetId], Get(c.plan, "target_snapshot"))
    && (Get(typed, "targets").Arr? ==> forall n | 0 <= n < |Get(typed, "targets").items| :: TargetAsPlanned(d, Get(typed, "targets").items[n]))
  }

  predicate TargetAsPlanned(d: Db, target: Json) {
    Get(target, "id").Str? && Get(target, "id").text != "" && Get(target, "snapshot_hash") != Null && Get(target, "snapshot_hash") != Str("") ==>
      && Get(target, "id").text in d.targets
      && Equivalent(Get(d.targets[Get(target, "id").text], "snapshot_hash"), Get(target, "snapshot_hash"))
  }

  /** The ChangeSet is of the current policy, and approved if it needs approval. */
  predicate Cleared(d: Db, c: Changeset) {
    c.generation == d.generation && (if c.approvalRequired then c.state == Approved else c.state == Previewed)
  }

  /** The approvals: none where none is needed, else two for a CRITICAL ChangeSet and one for others, chosen by time of issue. */
  ghost predicate Chosen(w: World, d: Db, id: string, c: Changeset, ids: seq<string>)
    requires id in d.changesets
  {
    if c.approvalRequired then |ids| == (if c.risk == Risk.Critical then 2 else 1) && Picks(w, d, id, ids) else ids == []
  }

  /** An approval counts exactly if it is granted and unspent, in date, of this plan and policy, and signed as it stands. */
  lemma ValidIff(w: World, d: Db, id: string, i: string)
    requires id in d.changesets
    ensures Valid(w, d, id, i) <==>
            && i in d.approvals
            && var a, c := d.approvals[i], d.changesets[id];
               && a.changesetId == id && a.planHash == c.planHash && a.generation == c.generation
               && a.status == Granted && a.consumedAt == None && d.now <= a.expiresAt && a.nonce != "" && a.mac != ""
               && a.mac == w.mac(MacRecord(i, id, c.planHash, a.approver, a.issuedAt, a.expiresAt, c.generation, a.nonce))
  {
  }

  /** Approvals are taken by time of issue, and by id within a second. */
  lemma EarlierIff(d: Db, i: string, j: string)
    requires i in d.approvals && j in d.approvals
    ensures Earlier(d, i, j) <==>
            if d.approvals[i].issuedAt == d.approvals[j].issuedAt then StrLess(i, j) else d.approvals[i].issuedAt < d.approvals[j].issuedAt
  {
  }

  /** The ticket is signed and in date, and was authorized with these approvals. */
  ghost predicate TicketHolds(w: World, d: Db, authorization: Option<Authorization>, ids: seq<string>, t: Ticket, signature: string) {
    && w.sign(t) == signature && t.issuedAt - 30 <= d.now <= t.expiresAt
    && authorization.Some? && authorization.value.ticketHash == w.ticketHash(t)
    && (forall i :: i in authorization.value.approvalIds <==> i in ids)
  }

  /** It names the ChangeSet and its plan. */
  predicate TicketNames(id: string, c: Changeset, t: Ticket) {
    t.changesetId == id && t.planHash == c.planHash && Equivalent(t.plan, c.plan)
  }

  lemma SameElems(a: seq<string>, b: seq<string>)
    ensures Elems(a) == Elems(b) <==> forall i :: i in a <==> i in b
  {
    if forall i :: i in a <==> i in b {
      assert forall i :: i in Elems(a) <==> i in Elems(b);
    }
    if Elems(a) == Elems(b) {
      forall i
        ensures i in a <==> i in b
      {
        assert i in a <==> i in Elems(a);
        assert i in b <==> i in Elems(b);
      }
    }
  }

  lemma BoundIff(w: World, d: Db, j: OperationJob)
    ensures Bound(w, d, j) <==>
            && j.changesetId in d.changesets && j.planId in d.operationPlans && d.operationPlans[j.planId].changesetId == j.changesetId
            && PlanIntact(w, d, j, d.changesets[j.changesetId], d.operationPlans[j.planId].plan)
  {
  }

  lemma TargetsIff(d: Db, c: Changeset, typed: Json)
    ensures Undrifted(d, c) && TargetsUndrifted(d, typed) <==> TargetsAsPlanned(d, c, typed)
  {
    var targets := Get(typed, "targets");
    if targets.Arr? {
      forall n | 0 <= n < |targets.items|
        ensures TargetUndrifted(d, targets.items[n]) <==> TargetAsPlanned(d, targets.items[n])
      {
      }
    }
  }

  /** The ticket names the job, its plans and the ChangeSet. */
  predicate TicketNamesJob(jobId: string, j: OperationJob, c: Changeset, typed: Json, t: Ticket) {
    && TicketNames(j.changesetId, c, t)
    && t.preconditions.ForOperation? && t.preconditions.jobId == jobId && t.preconditions.planId == j.planId
    && t.preconditions.executor == j.executor && t.preconditions.generation == c.generation
    && Equivalent(t.preconditions.typedHash, Get(typed, "plan_hash"))
  }

  /** The ticket is the job's, over these approvals. */
  ghost predicate TicketOfJob(w: World, d: Db, jobId: string, j: OperationJob, c: Changeset, typed: Json, ids: seq<string>, t: Ticket, signature: string) {
    TicketHolds(w, d, j.authorization, ids, t, signature) && TicketNamesJob(jobId, j, c, typed, t)
  }

  lemma MatchesIff(w: World, d: Db, jobId: string, j: OperationJob, t: Ticket)
    requires j.changesetId in d.changesets && j.planId in d.operationPlans
    ensures TicketMatches(w, d, j.changesetId, j.authorization, OperationPreconditions(d, jobId, j), t) <==>
            && j.authorization.Some? && j.authorization.value.ticketHash == w.ticketHash(t)
            && TicketNamesJob(jobId, j, d.changesets[j.changesetId], d.operationPlans[j.planId].plan, t)
  {
  }

  lemma GenuineIff(w: World, t: Ticket, signature: string, now: int, live: bool)
    ensures TicketGenuine(w, t, signature, now, live) <==> w.sign(t) == signature && t.issuedAt - 30 <= now && (live ==> now <= t.expiresAt)
  {
  }

  lemma TicketIff(w: World, d: Db, jobId: string, j: OperationJob, ids: seq<string>, t: Ticket, signature: string)
    requires Bound(w, d, j)
    ensures OperationTicketOk(w, d, jobId, j, t, signature, true) && Elems(j.authorization.value.approvalIds) == Elems(ids) <==>
            TicketOfJob(w, d, jobId, j, d.changesets[j.changesetId], d.operationPlans[j.planId].plan, ids, t, signature)
  {
    MatchesIff(w, d, jobId, j, t);
    GenuineIff(w, t, signature, d.now, true);
    if j.authorization.Some? {
      SameElems(j.authorization.value.approvalIds, ids);
    }
  }

  /** The plan, the policy, the targets and the approvals of a job are in order. */
  ghost predicate JobInOrder(w: World, d: Db, j: OperationJob, ids: seq<string>) {
    && j.changesetId in d.changesets && j.planId in d.operationPlans && d.operationPlans[j.planId].changesetId == j.changesetId
    && var c, typed := d.changesets[j.changesetId], d.operationPlans[j.planId].plan;
       PlanIntact(w, d, j, c, typed) && TargetsAsPlanned(d, c, typed) && Cleared(d, c) && Chosen(w, d, j.changesetId, c, ids)
  }

  lemma AuthorizedIff(w: World, d: Db, j: OperationJob, ids: seq<string>)
    ensures OperationAuthorized(w, d, j, ids) <==> JobInOrder(w, d, j, ids)
  {
    BoundIff(w, d, j);
    if j.changesetId in d.changesets && j.planId in d.operationPlans {
      TargetsIff(d, d.changesets[j.changesetId], d.operationPlans[j.planId].plan);
    }
  }

  /** A job is authorized exactly if it has not left and everything is in order. */
  lemma AuthorizeIff(w: World, d: Db, jobId: string, ids: seq<string>)
    ensures CanAuthorize(w, d, jobId, ids) <==>
            && jobId in d.operationJobs && (d.operationJobs[jobId].state == Waiting || d.operationJobs[jobId].state == Ready)
            && JobInOrder(w, d, d.operationJobs[jobId], ids)
  {
    if jobId in d.operationJobs {
      AuthorizedIff(w, d, d.operationJobs[jobId], ids);
    }
  }

  /** A request to start an operation job passes its checks exactly if all of this holds. */
  lemma OperationStartIff(w: World, d: Db, p: Prepared, signature: string)
    requires p.kind == Operation
    ensures ReadOk(w, d, p, signature) <==>
            && p.jobId in d.operationJobs && p.readAt == d.now && p.generation == d.generation
            && var j := d.operationJobs[p.jobId];
               && j.state == Ready && j.changesetId == p.changesetId && JobInOrder(w, d, j, p.approvals)
               && var c, typed := d.changesets[p.changesetId], d.operationPlans[j.planId].plan;
                  TicketOfJob(w, d, p.jobId, j, c, typed, p.approvals, p.ticket, signature) && p.snapshot == d.targets[c.targetId]
  {
    if p.jobId in d.operationJobs {
      var j := d.operationJobs[p.jobId];
      AuthorizedIff(w, d, j, p.approvals);
      if Bound(w, d, j) {
        TicketIff(w, d, p.jobId, j, p.approvals, p.ticket, signature);
      }
    }
  }

  /** A READY job can be failed without starting exactly under the checks of a start. */
  lemma AbandonIff(w: World, d: Db, jobId: string, t: Ticket, signature: string, ids: seq<string>)
    ensures CanAbandon(w, d, jobId, t, signature, ids) <==>
            && jobId in d.operationJobs
            && var j := d.operationJobs[jobId];
               && j.state == Ready && JobInOrder(w, d, j, ids)
               && TicketOfJob(w, d, jobId, j, d.changesets[j.changesetId], d.operationPlans[j.planId].plan, ids, t, signature)
  {
    if jobId in d.operationJobs {
      var j := d.operationJobs[jobId];
      AuthorizedIff(w, d, j, ids);
      if Bound(w, d, j) {
        TicketIff(w, d, jobId, j, ids, t, signature);
      }
    }
  }

  /** The ticket is the job's, in date or not. */
  predicate OwnTicket(w: World, now: int, jobId: string, j: OperationJob, c: Changeset, typed: Json, t: Ticket, signature: string) {
    && w.sign(t) == signature && t.issuedAt - 30 <= now
    && j.authorization.Some? && j.authorization.value.ticketHash == w.ticketHash(t) && TicketNamesJob(jobId, j, c, typed, t)
  }

  lemma OwnTicketIff(w: World, d: Db, jobId: string, j: OperationJob, t: Ticket, signature: string)
    requires Bound(w, d, j)
    ensures OperationTicketOk(w, d, jobId, j, t, signature, false) <==>
            OwnTicket(w, d.now, jobId, j, d.changesets[j.changesetId], d.operationPlans[j.planId].plan, t, signature)
  {
    MatchesIff(w, d, jobId, j, t);
    GenuineIff(w, t, signature, d.now, false);
  }

  /** What may follow what. */
  predicate MayFollow(x: JobState, y: JobState) {
    if x == Running then y == Running || y == Paused || y == Succeeded || y == JobFailed else x == Paused && (y == Running || y == JobFailed)
  }

  lemma MayFollowIff(x: JobState, y: JobState)
    ensures (x == Running || x == Paused) && Allowed(x, y) <==> MayFollow(x, y)
  {
  }

  /** A job past its start moves exactly while its ChangeSet executes the intact plan, under its own ticket, in date or not. */
  lemma MoveIff(w: World, d: Db, jobId: string, to: JobState, t: Ticket, signature: string)
    ensures CanMove(w, d, jobId, to, t, signature) <==>
            && jobId in d.operationJobs && MayFollow(d.operationJobs[jobId].state, to)
            && var j := d.operationJobs[jobId];
               && j.changesetId in d.changesets && j.planId in d.operationPlans && d.operationPlans[j.planId].changesetId == j.changesetId
               && var c, typed := d.changesets[j.changesetId], d.operationPlans[j.planId].plan;
                  c.state == Executing && PlanIntact(w, d, j, c, typed) && OwnTicket(w, d.now, jobId, j, c, typed, t, signature)
  {
    if jobId in d.operationJobs {
      var j := d.operationJobs[jobId];
      MayFollowIff(j.state, to);
      BoundIff(w, d, j);
      if Bound(w, d, j) {
        OwnTicketIff(w, d, jobId, j, t, signature);
      }
    }
  }

  /** A request to start a provider job passes its checks exactly if all of this holds. */
  lemma ProviderStartIff(w: World, d: Db, p: Prepared, signature: string)
    requires p.kind == Provision
    ensures ReadOk(w, d, p, signature) <==>
            && p.jobId in d.providerJobs && p.changesetId in d.changesets && p.readAt == d.now && p.generation == d.generation
            && var j, c, t := d.providerJobs[p.jobId], d.changesets[p.changesetId], p.ticket;
               && j.state == Ready && j.operation == "cluster.provision.apply" && j.changesetId == p.changesetId && j.planHash == c.planHash
               && Cleared(d, c) && Chosen(w, d, p.changesetId, c, p.approvals)
               && TicketHolds(w, d, j.authorization, p.approvals, t, signature) && TicketNames(p.changesetId, c, t)
               && t.preconditions.ForProvider? && t.preconditions.jobId == p.jobId && t.preconditions.manifestHash == j.manifestHash
               && t.preconditions.generation == c.generation
               && Equivalent(t.preconditions.typedHash, Get(Get(Get(c.plan, "parameters"), "typed_plan"), "plan_hash"))
  {
    if p.jobId in d.providerJobs && d.providerJobs[p.jobId].authorization.Some? {
      SameElems(d.providerJobs[p.jobId].authorization.value.approvalIds, p.approvals);
    }
  }

  /** A start in one block passes its checks exactly if all of this holds; it issues its own ticket, for 120 seconds. */
  lemma DirectStartIff(w: World, d: Db, p: Prepared, signature: string)
    requires p.kind == Direct
    ensures ReadOk(w, d, p, signature) <==>
            && p.changesetId in d.changesets && p.readAt == d.now && p.generation == d.generation
            && var c := d.changesets[p.changesetId];
               && c.generation == d.generation && (c.state == Previewed || c.state == Approved) && w.hash(c.plan) == c.planHash
               && c.targetId in d.targets && Equivalent(d.targets[c.targetId], Get(c.plan, "target_snapshot")) && p.snapshot == d.targets[c.targetId]
               && c.preview.Some? && c.preview.value.source == "kubernetes-broker" && Chosen(w, d, p.changesetId, c, p.approvals)
               && p.ticket == Ticket(p.changesetId, c.planHash, c.plan, ForPreview(c.preview.value.preconditions), d.now, d.now + 120)
  {
  }
}
