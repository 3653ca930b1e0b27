/**
  The rows of the ChangeSet, approval and job tables, and the checks that only read them
  (main.py:225-239, 719-807, 3877-4022; tickets.py:18-57).

  Documents are JSON values as a parser returns them. Python's `==` on dictionaries ignores the order of
  keys, which is `Equivalent`.
 */
module Tables {
  import opened Json
  import opened Wrappers
  import opened Ordering
  import PlanHash
  import Risk

  datatype State =
    | Planned | Previewed | AwaitingApproval | Approved | Executing | Executed | Failed | Rejected | Cancelled | Expired
    | PolicyDenied | PreviewFailed | StalePolicy

  /** `TERMINAL_CHANGESET_STATES`. */
  predicate Terminal(s: State) {
    !(s.Planned? || s.Previewed? || s.AwaitingApproval? || s.Approved? || s.Executing?)
  }

  datatype Preview = Preview(source: string, preconditions: Json)

  /**
    A ChangeSet. Its plan is hashed once, when it is inserted; `planned` remembers that plan, while `plan` is
    the document now stored, which an operator could rewrite. `expiresAt` is 0 where the column is empty.
   */
  datatype Changeset = Changeset(
    operation: string, targetId: string, requestedBy: string, risk: Risk.Level, approvalRequired: bool, planHash: string,
    generation: int, expiresAt: int, planned: Json, plan: Json, preview: Option<Preview>, state: State)

  datatype ApprovalStatus = Granted | Consumed | Withdrawn(reason: State)

  /** An approval; status APPROVED is `Granted`. */
  datatype Approval = Approval(
    changesetId: string, planHash: string, approver: string, issuedAt: int, expiresAt: int, generation: int,
    nonce: string, mac: string, status: ApprovalStatus, consumedAt: Option<int>)

  datatype JobState = Waiting | Ready | Running | Paused | Succeeded | JobFailed

  datatype Preconditions =
    | ForOperation(jobId: string, planId: string, executor: string, typedHash: Json, generation: int)
    | ForProvider(jobId: string, typedHash: Json, generation: int, manifestHash: string)
    | ForPreview(details: Json)

  datatype Ticket = Ticket(
    changesetId: string, planHash: string, plan: Json, preconditions: Preconditions, issuedAt: int, expiresAt: int)

  /** What authorizing a job writes into its request. */
  datatype Authorization = Authorization(ticketHash: string, issuedAt: int, expiresAt: int, approvalIds: seq<string>)

  datatype OperationPlan = OperationPlan(changesetId: string, plan: Json)

  /** An operation job; `issued` remembers the ticket most recently issued for it. */
  datatype OperationJob = OperationJob(
    planId: string, changesetId: string, executor: string, planHash: string, typedHash: Json, state: JobState,
    authorization: Option<Authorization>, issued: Option<Ticket>)

  datatype ProviderJob = ProviderJob(
    changesetId: string, operation: string, planHash: string, manifestHash: string, state: JobState,
    authorization: Option<Authorization>)

  datatype Kind = Operation | Provision | Direct

  /** A start that passed its checks: what the request holds between them and its writes. */
  datatype Prepared = Prepared(
    kind: Kind, jobId: string, changesetId: string, approvals: seq<string>, ticket: Ticket, snapshot: Json, readAt: int,
    generation: int)

  /** The audit row of a committed start. */
  datatype Start = Start(request: Prepared, at: int, generation: int)

  datatype Db = Db(
    now: int, generation: int, changesets: map<string, Changeset>, approvals: map<string, Approval>,
    operationPlans: map<string, OperationPlan>, operationJobs: map<string, OperationJob>, providerJobs: map<string, ProviderJob>,
    targets: map<string, Json>, starts: seq<Start>, inFlight: set<Prepared>)

  datatype MacRecord = MacRecord(
    id: string, changesetId: string, planHash: string, approver: string, issuedAt: int, expiresAt: int, generation: int,
    nonce: string)

  /** Hashing and signing, and the runtime capability tables: arbitrary functions. */
  datatype World = World(
    hash: Json -> string, ticketHash: Ticket -> string, sign: Ticket -> string, mac: MacRecord -> string,
    capable: (string, Json) -> bool)

  /** A hash tells a document from every other, key order aside, and so it tells the tickets of jobs apart. */
  ghost predicate CollisionFree(w: World) {
    && (forall a, b {:trigger w.hash(a), w.hash(b)} :: w.hash(a) == w.hash(b) <==> Equivalent(a, b))
    && (forall s: Ticket, t: Ticket {:trigger w.ticketHash(s), w.ticketHash(t)} | s.preconditions.ForOperation? && t.preconditions.ForOperation? ::
          w.ticketHash(s) == w.ticketHash(t) <==> SameTicket(s, t))
  }

  // ---- Reading documents ------------------------------------------------------------------------

  function TypedPlan(plan: Json): Json {
    Get(Get(plan, "parameters"), "typed_plan")
  }

  // ---- Approvals --------------------------------------------------------------------------------

  function Required(c: Changeset): nat {
    if c.risk == Risk.Critical then 2 else 1
  }

  /** How many approvals a start of this ChangeSet consumes. */
  function Quorum(c: Changeset): nat {
    if c.approvalRequired then Required(c) else 0
  }

  function MacOf(w: World, id: string, a: Approval): string {
    w.mac(MacRecord(id, a.changesetId, a.planHash, a.approver, a.issuedAt, a.expiresAt, a.generation, a.nonce))
  }

  /** The approval is unspent and still holds for this ChangeSet (`_approval_is_valid` on a selected row). */
  predicate Valid(w: World, d: Db, changesetId: string, id: string)
    requires changesetId in d.changesets
  {
    && id in d.approvals
    && var a, c := d.approvals[id], d.changesets[changesetId];
       && a.changesetId == changesetId && a.planHash == c.planHash && a.status == Granted && a.consumedAt == None
       && d.now <= a.expiresAt && a.generation == c.generation
       && a.nonce != "" && a.mac != "" && a.mac == MacOf(w, id, a)
  }

  function IssuedAt(d: Db, id: string): int {
    if id in d.approvals then d.approvals[id].issuedAt else 0
  }

  /** `ORDER BY issued_at ASC, id ASC`. */
  predicate Earlier(d: Db, x: string, y: string) {
    IssuedAt(d, x) < IssuedAt(d, y) || (IssuedAt(d, x) == IssuedAt(d, y) && StrLess(x, y))
  }

  function ApproverOf(d: Db, i: string): string {
    if i in d.approvals then d.approvals[i].approver else ""
  }

  /** Against the choice `ids`, the approval `x` loses: to an earlier one of its approver, or by coming after all of them. */
  ghost predicate Outranked(d: Db, ids: seq<string>, x: string) {
    && (|| (forall n | 0 <= n < |ids| :: Earlier(d, ids[n], x))
        || (exists n :: 0 <= n < |ids| && ApproverOf(d, ids[n]) == ApproverOf(d, x)))
    && (forall n | 0 <= n < |ids| && ApproverOf(d, ids[n]) == ApproverOf(d, x) :: x == ids[n] || Earlier(d, ids[n], x))
  }

  /** In order of issue, each of another approver. */
  ghost predicate InOrder(d: Db, ids: seq<string>) {
    forall m, n | 0 <= m < n < |ids| :: Earlier(d, ids[m], ids[n]) && ApproverOf(d, ids[m]) != ApproverOf(d, ids[n])
  }

  /** `ids` are the first valid approvals of the first `|ids|` approvers, in order. */
  ghost predicate Picks(w: World, d: Db, changesetId: string, ids: seq<string>)
    requires changesetId in d.changesets
  {
    && (forall n | 0 <= n < |ids| :: Valid(w, d, changesetId, ids[n]))
    && InOrder(d, ids)
    && (forall x {:trigger Outranked(d, ids, x)} | Valid(w, d, changesetId, x) :: Outranked(d, ids, x))
  }

  /** What `_valid_operation_approval_ids` returns when it does not raise. */
  ghost predicate QuorumIs(w: World, d: Db, changesetId: string, ids: seq<string>)
    requires changesetId in d.changesets
  {
    var c := d.changesets[changesetId];
    if c.approvalRequired then |ids| == Required(c) && Picks(w, d, changesetId, ids) else ids == []
  }

  // ---- Targets and plans --------------------------------------------------------------------------

  predicate CurrentGeneration(d: Db, c: Changeset) {
    c.generation == d.generation
  }

  /** The state a job or an agent task needs its ChangeSet in. */
  predicate MayRun(state: State, approvalRequired: bool) {
    state == if approvalRequired then Approved else Previewed
  }

  predicate Authorized(c: Changeset) {
    MayRun(c.state, c.approvalRequired)
  }

  /** The target's snapshot is the planned one. */
  predicate Undrifted(d: Db, c: Changeset) {
    c.targetId in d.targets && Equivalent(d.targets[c.targetId], Get(c.plan, "target_snapshot"))
  }

  /** A typed plan's own `plan_hash` is the hash of the rest of it. */
  predicate TypedPlanIntact(w: World, plan: Json) {
    && plan.Obj? && Get(plan, PlanHash.PLAN_HASH) != Null && Get(plan, PlanHash.PLAN_HASH) != Str("")
    && Str(w.hash(Obj(PlanHash.Without(plan.fields, PlanHash.PLAN_HASH)))) == Get(plan, PlanHash.PLAN_HASH)
  }

  /** One further target of a typed plan still has the planned hash; an entry without id or hash is passed over. */
  predicate TargetUndrifted(d: Db, target: Json) {
    var id, expected := Get(target, "id"), Get(target, "snapshot_hash");
    || !id.Str? || id.text == "" || expected == Null || expected == Str("")
    || (id.text in d.targets && Equivalent(Get(d.targets[id.text], "snapshot_hash"), expected))
  }

  predicate TargetsUndrifted(d: Db, typed: Json) {
    var targets := Get(typed, "targets");
    targets.Arr? ==> forall i | 0 <= i < |targets.items| :: TargetUndrifted(d, targets.items[i])
  }

  /** `_operation_job_bound_plan` does not raise (the generation is checked apart). */
  predicate Bound(w: World, d: Db, j: OperationJob) {
    && j.changesetId in d.changesets && j.planId in d.operationPlans
    && var c, p := d.changesets[j.changesetId], d.operationPlans[j.planId];
       && w.hash(c.plan) == c.planHash && c.planHash == j.planHash
       && p.changesetId == j.changesetId && TypedPlanIntact(w, p.plan) && Equivalent(TypedPlan(c.plan), p.plan)
       && j.typedHash == Get(p.plan, PlanHash.PLAN_HASH)
  }

  /** `_verify_operation_job_authorization` does not raise and selects `ids` (the PXE manifest is checked apart). */
  ghost predicate OperationAuthorized(w: World, d: Db, j: OperationJob, ids: seq<string>) {
    && Bound(w, d, j)
    && var c := d.changesets[j.changesetId];
       && CurrentGeneration(d, c) && Authorized(c) && Undrifted(d, c) && TargetsUndrifted(d, d.operationPlans[j.planId].plan)
       && QuorumIs(w, d, j.changesetId, ids)
  }

  /** `_provider_job_authorization` does not raise (the artifact manifest is checked apart). */
  predicate ProviderAuthorized(d: Db, j: ProviderJob) {
    && j.changesetId in d.changesets
    && var c := d.changesets[j.changesetId];
       CurrentGeneration(d, c) && Authorized(c) && c.planHash == j.planHash
  }

  // ---- Tickets ------------------------------------------------------------------------------------

  function Min(a: int, b: int): int {
    if a < b then a else b
  }

  function Max(a: int, b: int): int {
    if a < b then b else a
  }

  function MinExpiry(d: Db, bound: int, ids: seq<string>): (least: int)
    requires forall n | 0 <= n < |ids| :: ids[n] in d.approvals
    ensures least <= bound && forall n | 0 <= n < |ids| :: least <= d.approvals[ids[n]].expiresAt
    ensures least == bound || exists n :: 0 <= n < |ids| && least == d.approvals[ids[n]].expiresAt
  {
    if ids == [] then bound else Min(d.approvals[ids[0]].expiresAt, MinExpiry(d, bound, ids[1..]))
  }

  const TICKET_SECONDS := 120

  /** A ticket lives until the ChangeSet or an approval expires, for at most 120 seconds and at least one. */
  function Ttl(d: Db, c: Changeset, ids: seq<string>): (ttl: int)
    requires forall n | 0 <= n < |ids| :: ids[n] in d.approvals
    ensures 1 <= ttl <= TICKET_SECONDS
    ensures ttl > 1 ==> (c.expiresAt != 0 ==> d.now + ttl <= c.expiresAt) && forall n | 0 <= n < |ids| :: d.now + ttl <= d.approvals[ids[n]].expiresAt
  {
    var bound := if c.expiresAt == 0 then d.now + TICKET_SECONDS else c.expiresAt;
    Max(1, Min(TICKET_SECONDS, MinExpiry(d, bound, ids) - d.now))
  }

  /** It lives as long as those bounds allow, where they allow more than a second. */
  lemma {:induction false} MinExpiryIsGreatest(d: Db, bound: int, ids: seq<string>, t: int)
    requires forall n | 0 <= n < |ids| :: ids[n] in d.approvals
    requires t <= bound && forall n | 0 <= n < |ids| :: t <= d.approvals[ids[n]].expiresAt
    ensures t <= MinExpiry(d, bound, ids)
  {
    if ids != [] {
      assert t <= d.approvals[ids[0]].expiresAt && forall n | 0 <= n < |ids| - 1 :: ids[1..][n] == ids[n + 1];
      MinExpiryIsGreatest(d, bound, ids[1..], t);
    }
  }

  lemma TtlIsGreatest(d: Db, c: Changeset, ids: seq<string>, t: int)
    requires forall n | 0 <= n < |ids| :: ids[n] in d.approvals
    requires t <= TICKET_SECONDS && (c.expiresAt != 0 ==> d.now + t <= c.expiresAt)
    requires forall n | 0 <= n < |ids| :: d.now + t <= d.approvals[ids[n]].expiresAt
    ensures t <= Ttl(d, c, ids)
  {
    MinExpiryIsGreatest(d, if c.expiresAt == 0 then d.now + TICKET_SECONDS else c.expiresAt, ids, d.now + t);
  }

  function TicketFor(d: Db, changesetId: string, preconditions: Preconditions, ttl: int): Ticket
    requires changesetId in d.changesets
  {
    var c := d.changesets[changesetId];
    Ticket(changesetId, c.planHash, c.plan, preconditions, d.now, d.now + ttl)
  }

  function OperationPreconditions(d: Db, jobId: string, j: OperationJob): Preconditions
    requires j.changesetId in d.changesets && j.planId in d.operationPlans
  {
    ForOperation(jobId, j.planId, j.executor, Get(d.operationPlans[j.planId].plan, PlanHash.PLAN_HASH), d.changesets[j.changesetId].generation)
  }

  function ProviderPreconditions(d: Db, jobId: string, j: ProviderJob): Preconditions
    requires j.changesetId in d.changesets
  {
    var c := d.changesets[j.changesetId];
    ForProvider(jobId, Get(TypedPlan(c.plan), PlanHash.PLAN_HASH), c.generation, j.manifestHash)
  }

  predicate SamePreconditions(p: Preconditions, q: Preconditions) {
    match p
    case ForOperation(jobId, planId, executor, typedHash, generation) =>
      && q.ForOperation? && jobId == q.jobId && planId == q.planId && executor == q.executor
      && Equivalent(typedHash, q.typedHash) && generation == q.generation
    case ForProvider(jobId, typedHash, generation, manifestHash) =>
      && q.ForProvider? && jobId == q.jobId && Equivalent(typedHash, q.typedHash) && generation == q.generation
      && manifestHash == q.manifestHash
    case ForPreview(details) => q.ForPreview? && Equivalent(details, q.details)
  }

  /** Two tickets that are equal as dictionaries. */
  predicate SameTicket(s: Ticket, t: Ticket) {
    && s.changesetId == t.changesetId && s.planHash == t.planHash && Equivalent(s.plan, t.plan)
    && SamePreconditions(s.preconditions, t.preconditions) && s.issuedAt == t.issuedAt && s.expiresAt == t.expiresAt
  }

  /** `verify_ticket` does not raise. */
  predicate TicketGenuine(w: World, t: Ticket, signature: string, now: int, live: bool) {
    && w.sign(t) == signature && (live ==> now <= t.expiresAt) && t.issuedAt <= now + 30
  }

  /** The ticket is the one authorized for the job and still describes its ChangeSet. */
  predicate TicketMatches(w: World, d: Db, changesetId: string, authorization: Option<Authorization>, preconditions: Preconditions, t: Ticket)
    requires changesetId in d.changesets
  {
    && authorization.Some? && w.ticketHash(t) == authorization.value.ticketHash
    && t.changesetId == changesetId && t.planHash == d.changesets[changesetId].planHash
    && Equivalent(t.plan, d.changesets[changesetId].plan)
    && SamePreconditions(t.preconditions, preconditions)
  }

  /** `_verify_operation_job_ticket` does not raise. */
  predicate OperationTicketOk(w: World, d: Db, jobId: string, j: OperationJob, t: Ticket, signature: string, live: bool) {
    && Bound(w, d, j) && TicketGenuine(w, t, signature, d.now, live)
    && TicketMatches(w, d, j.changesetId, j.authorization, OperationPreconditions(d, jobId, j), t)
  }

  const EXECUTORS := {"kubernetes-broker", "artifact-mirror-worker", "cluster-provider-worker", "infrastructure-provider-worker"}
}
