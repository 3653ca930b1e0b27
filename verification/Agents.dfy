/**
  Agent tasks: issued for an authorized ChangeSet, claimed once under their own policy and plan, completed once
  by their own agent; a nonce of an agent is accepted once (main.py:1219-1234, 1259-1396; db.py:221-224).
 */
module Agents {
  import opened Ordering
  import opened Wrappers
  import Tables

  datatype TaskState = Issued | Claimed | Succeeded | Failed | Expired | Stale | Invalidated

  /** A task row; `changesetHash` is part of the signed envelope. */
  datatype Task = Task(
    agentId: string, changesetId: string, generation: int, changesetHash: string, issuedAt: int, expiresAt: int,
    signature: string, state: TaskState)

  /** What the claim reads of a ChangeSet. */
  datatype Row = Row(state: Tables.State, approvalRequired: bool, planHash: string, generation: int, expiresAt: int)

  /** The audit row of a claim: who, and under which policy and plan hash. */
  datatype Claim = Claim(taskId: string, agentId: string, nonce: string, generation: int, planHash: string)

  datatype Completion = Completion(taskId: string, agentId: string)

  datatype Board = Board(
    now: int, generation: int, changesets: map<string, Row>, active: set<string>, tasks: map<string, Task>,
    nonces: set<(string, string)>, accepted: seq<(string, string)>, claims: seq<Claim>, completions: seq<Completion>)

  // ---- Steps ------------------------------------------------------------------------------------

  predicate Authorized(c: Row) {
    Tables.MayRun(c.state, c.approvalRequired)
  }

  function SetState(b: Board, id: string, s: TaskState): Board
    requires id in b.tasks
  {
    b.(tasks := b.tasks[id := b.tasks[id].(state := s)])
  }

  /** `INSERT INTO agent_nonces`: refused for a pair already there. */
  function WithNonce(b: Board, agentId: string, nonce: string): Board {
    b.(nonces := b.nonces + {(agentId, nonce)}, accepted := b.accepted + [(agentId, nonce)])
  }

  predicate CanIssue(b: Board, id: string, agentId: string, changesetId: string) {
    && id !in b.tasks && agentId in b.active && changesetId in b.changesets
    && b.changesets[changesetId].generation == b.generation && Authorized(b.changesets[changesetId])
  }

  function NewTask(sign: Task -> string, b: Board, agentId: string, changesetId: string, ttl: int): Task
    requires changesetId in b.changesets
  {
    var c := b.changesets[changesetId];
    var expiresAt := if c.expiresAt == 0 then b.now + ttl else Tables.Min(b.now + ttl, c.expiresAt);
    var t := Task(agentId, changesetId, c.generation, c.planHash, b.now, expiresAt, "", Issued);
    t.(signature := sign(t))
  }

  /** A new task: for this agent and this ChangeSet as it is, signed, and for no longer than the ChangeSet lives. */
  predicate Envelops(sign: Task -> string, now: int, t: Task, agentId: string, changesetId: string, c: Row, ttl: int) {
    && t.agentId == agentId && t.changesetId == changesetId && t.generation == c.generation && t.changesetHash == c.planHash
    && t.issuedAt == now && t.state == Issued && t.signature == sign(t.(signature := "", state := Issued))
    && t.expiresAt == if c.expiresAt != 0 && c.expiresAt < now + ttl then c.expiresAt else now + ttl
  }

  /** `UPDATE agent_tasks SET state='EXPIRED' WHERE agent_id=? AND state='ISSUED' AND expires_at<?`. */
  function Overdue(b: Board, agentId: string): map<string, Task> {
    map id | id in b.tasks ::
      if b.tasks[id].agentId == agentId && b.tasks[id].state == Issued && b.tasks[id].expiresAt < b.now
      then b.tasks[id].(state := Expired) else b.tasks[id]
  }

  /** The envelope is the one that was signed. */
  predicate Signed(sign: Task -> string, t: Task) {
    t.signature == sign(t.(signature := "", state := Issued))
  }

  predicate Held(b: Board, id: string, agentId: string, s: TaskState) {
    agentId in b.active && id in b.tasks && b.tasks[id].agentId == agentId && b.tasks[id].state == s
  }

  /** What a claim settles on before it can be refused outright, and the state it leaves a task in that it ends. */
  function Verdict(b: Board, t: Task): Option<TaskState> {
    if t.expiresAt < b.now then Some(Expired)
    else if t.generation != b.generation then Some(Stale)
    else if t.changesetId !in b.changesets then None
    else if !Authorized(b.changesets[t.changesetId]) || t.changesetHash != b.changesets[t.changesetId].planHash then Some(Invalidated)
    else Some(Claimed)
  }

  /** The claim succeeds. */
  predicate CanClaim(sign: Task -> string, b: Board, id: string, agentId: string, nonce: string) {
    Held(b, id, agentId, Issued) && Verdict(b, b.tasks[id]) == Some(Claimed) && Signed(sign, b.tasks[id]) && (agentId, nonce) !in b.nonces
  }

  function ClaimedBy(b: Board, id: string, agentId: string, nonce: string): Board
    requires id in b.tasks && b.tasks[id].changesetId in b.changesets
  {
    var claim := Claim(id, agentId, nonce, b.generation, b.changesets[b.tasks[id].changesetId].planHash);
    SetState(WithNonce(b, agentId, nonce), id, Claimed).(claims := b.claims + [claim])
  }

  datatype Event =
    | Environment
    | Heartbeat(agentId: string, nonce: string)
    | Issue(id: string, agentId: string, changesetId: string, ttl: int)
    | Poll(agentId: string)
    | Claims(id: string, agentId: string, nonce: string)
    | End(id: string, agentId: string, state: TaskState)
    | Complete(id: string, agentId: string, succeeded: bool)

  ghost predicate Next(sign: Task -> string, a: Board, e: Event, b: Board) {
    match e
    case Environment => b == a.(now := b.now, generation := b.generation, changesets := b.changesets, active := b.active)
    case Heartbeat(agentId, nonce) => agentId in a.active && (agentId, nonce) !in a.nonces && b == WithNonce(a, agentId, nonce)
    case Issue(id, agentId, changesetId, ttl) =>
      CanIssue(a, id, agentId, changesetId) && b == a.(tasks := a.tasks[id := NewTask(sign, a, agentId, changesetId, ttl)])
    case Poll(agentId) => agentId in a.active && b == a.(tasks := Overdue(a, agentId))
    case Claims(id, agentId, nonce) => CanClaim(sign, a, id, agentId, nonce) && b == ClaimedBy(a, id, agentId, nonce)
    case End(id, agentId, s) => Held(a, id, agentId, Issued) && Verdict(a, a.tasks[id]) == Some(s) && s != Claimed && b == SetState(a, id, s)
    case Complete(id, agentId, succeeded) =>
      && Held(a, id, agentId, Claimed)
      && b == SetState(a, id, if succeeded then Succeeded else Failed).(completions := a.completions + [Completion(id, agentId)])
  }

  // ---- The handlers -----------------------------------------------------------------------------

  class Desk {
    const sign: Task -> string
    var now: int
    var generation: int
    var changesets: map<string, Row>
    var active: set<string>
    var tasks: map<string, Task>
    var nonces: set<(string, string)>
    var accepted: seq<(string, string)>
    var claims: seq<Claim>
    var completions: seq<Completion>

    function State(): Board
      reads this
    {
      Board(now, generation, changesets, active, tasks, nonces, accepted, claims, completions)
    }

    constructor (sign: Task -> string)
      ensures State() == Board(0, 1, map[], {}, map[], {}, [], [], []) && this.sign == sign
    {
      this.sign, now, generation := sign, 0, 1;
      changesets, active, tasks, nonces := map[], {}, map[], {};
      accepted, claims, completions := [], [], [];
    }

    /** `agent_heartbeat`. */
    method BeatHeart(agentId: string, nonce: string) returns (ok: bool)
      modifies this
      ensures ok <==> agentId in old(active) && (agentId, nonce) !in old(nonces)
      ensures if ok then Next(sign, old(State()), Heartbeat(agentId, nonce), State()) else State() == old(State())
    {
      if agentId !in active || (agentId, nonce) in nonces {
        return false;
      }
      nonces, accepted := nonces + {(agentId, nonce)}, accepted + [(agentId, nonce)];
      return true;
    }

    /** `issue_agent_task`, past its checks of capability and connection mode. */
    method IssueTask(id: string, agentId: string, changesetId: string, ttl: int) returns (ok: bool)
      modifies this`tasks
      ensures ok <==> && id !in old(tasks) && agentId in active && changesetId in changesets
                      && var c := changesets[changesetId];
                         c.generation == generation && c.state == if c.approvalRequired then Tables.Approved else Tables.Previewed
      ensures ok ==> id in tasks && changesetId in changesets && Envelops(sign, now, tasks[id], agentId, changesetId, changesets[changesetId], ttl)
      ensures if ok then Next(sign, old(State()), Issue(id, agentId, changesetId, ttl), State()) else State() == old(State())
    {
      if id in tasks || agentId !in active || changesetId !in changesets || changesets[changesetId].generation != generation {
        return false;
      }
      if !Authorized(changesets[changesetId]) {
        return false;
      }
      tasks := tasks[id := NewTask(sign, State(), agentId, changesetId, ttl)];
      return true;
    }

    /** `next_agent_task` up to its read. */
    method ExpireOverdue(agentId: string)
      requires agentId in active
      modifies this`tasks
      ensures Next(sign, old(State()), Poll(agentId), State())
      ensures tasks.Keys == old(tasks).Keys
      ensures forall id | id in tasks ::
                var t := old(tasks)[id];
                tasks[id] == if t.agentId == agentId && t.state == Issued && t.expiresAt < now then t.(state := Expired) else t
    {
      tasks := Overdue(State(), agentId);
    }

    /**
      `claim_agent_task`. A claim that finds the task out of date, of an older policy, or of a ChangeSet no
      longer authorized ends the task; one refused over its signature or its nonce leaves everything as it was.
     */
    method ClaimTask(id: string, agentId: string, nonce: string) returns (ok: bool)
      modifies this`nonces, this`accepted, this`tasks, this`claims
      ensures ok <==> CanClaim(sign, old(State()), id, agentId, nonce)
      ensures ok ==> Next(sign, old(State()), Claims(id, agentId, nonce), State())
      ensures ok ==> var t := old(tasks)[id];
                     && t.agentId == agentId && t.generation == generation && now <= t.expiresAt && t.changesetId in changesets
                     && t.changesetHash == changesets[t.changesetId].planHash && Authorized(changesets[t.changesetId])
                     && t.signature == sign(t.(signature := "", state := Issued))
      ensures ok ==> (agentId, nonce) in nonces && (agentId, nonce) !in old(nonces) && tasks[id].state == Claimed
      ensures !ok && id in old(tasks) && old(tasks)[id].state == Issued && agentId in active && old(tasks)[id].agentId == agentId ==>
                var t := old(tasks)[id];
                && id in tasks
                && tasks[id].state == if t.expiresAt < now then Expired else if t.generation != generation then Stale
                                      else if t.changesetId !in changesets then Issued
                                      else if !Authorized(changesets[t.changesetId]) || t.changesetHash != changesets[t.changesetId].planHash then Invalidated
                                      else Issued
      ensures !ok ==>
                if Held(old(State()), id, agentId, Issued) && Verdict(old(State()), old(tasks)[id]).Some? && Verdict(old(State()), old(tasks)[id]) != Some(Claimed)
                then Next(sign, old(State()), End(id, agentId, Verdict(old(State()), old(tasks)[id]).value), State())
                else State() == old(State())
    {
      if agentId !in active || id !in tasks || tasks[id].agentId != agentId || tasks[id].state != Issued {
        return false;
      }
      var row := tasks[id];
      if row.expiresAt < now {
        tasks := tasks[id := row.(state := Expired)];
        return false;
      }
      if row.generation != generation {
        tasks := tasks[id := row.(state := Stale)];
        return false;
      }
      if row.changesetId !in changesets {
        return false;
      }
      var changeset := changesets[row.changesetId];
      if !Authorized(changeset) || row.changesetHash != changeset.planHash {
        tasks := tasks[id := row.(state := Invalidated)];
        return false;
      }
      if !Signed(sign, row) || (agentId, nonce) in nonces {
        return false;
      }
      AcceptClaim(id, agentId, nonce);
      return true;
    }

    /** The nonce is recorded and the task claimed. */
    method AcceptClaim(id: string, agentId: string, nonce: string)
      requires CanClaim(sign, State(), id, agentId, nonce)
      modifies this`nonces, this`accepted, this`tasks, this`claims
      ensures Next(sign, old(State()), Claims(id, agentId, nonce), State())
      ensures nonces == old(nonces) + {(agentId, nonce)}
    {
      ghost var b := State();
      nonces, accepted := nonces + {(agentId, nonce)}, accepted + [(agentId, nonce)];
      claims := claims + [Claim(id, agentId, nonce, generation, changesets[tasks[id].changesetId].planHash)];
      tasks := tasks[id := tasks[id].(state := Claimed)];
      assert State() == ClaimedBy(b, id, agentId, nonce);
    }

    /** `complete_agent_task`. */
    method CompleteTask(id: string, agentId: string, succeeded: bool) returns (ok: bool)
      modifies this`tasks, this`completions
      ensures ok <==> agentId in active && id in old(tasks) && old(tasks)[id].agentId == agentId && old(tasks)[id].state == Claimed
      ensures ok ==> id in tasks && tasks[id].state == if succeeded then Succeeded else Failed
      ensures if ok then Next(sign, old(State()), Complete(id, agentId, succeeded), State()) else State() == old(State())
    {
      if agentId !in active || id !in tasks || tasks[id].agentId != agentId || tasks[id].state != Claimed {
        return false;
      }
      tasks := tasks[id := tasks[id].(state := if succeeded then Succeeded else Failed)];
      completions := completions + [Completion(id, agentId)];
      return true;
    }
  }

  // ---- What every run keeps -----------------------------------------------------------------------

  predicate WasClaimed(s: TaskState) {
    s == Claimed || s == Succeeded || s == Failed
  }

  predicate WasCompleted(s: TaskState) {
    s == Succeeded || s == Failed
  }

  /** The claim is of that task, by its own agent, under its own policy and plan. */
  predicate ClaimOk(b: Board, c: Claim) {
    && c.taskId in b.tasks
    && var t := b.tasks[c.taskId];
       WasClaimed(t.state) && c.agentId == t.agentId && c.generation == t.generation && c.planHash == t.changesetHash
  }

  predicate CompletionOk(b: Board, c: Completion) {
    c.taskId in b.tasks && WasCompleted(b.tasks[c.taskId].state) && c.agentId == b.tasks[c.taskId].agentId
  }

  ghost predicate ClaimsOk(b: Board) {
    && (forall k | 0 <= k < |b.claims| :: ClaimOk(b, b.claims[k]))
    && (forall k, l | 0 <= k < l < |b.claims| :: b.claims[k].taskId != b.claims[l].taskId)
  }

  ghost predicate CompletionsOk(b: Board) {
    && (forall k | 0 <= k < |b.completions| :: CompletionOk(b, b.completions[k]))
    && (forall k, l | 0 <= k < l < |b.completions| :: b.completions[k].taskId != b.completions[l].taskId)
  }

  ghost predicate NoncesOk(b: Board) {
    Distinct(b.accepted) && Elems(b.accepted) == b.nonces
  }

  ghost predicate Sound(b: Board) {
    ClaimsOk(b) && CompletionsOk(b) && NoncesOk(b)
  }

  /** A task keeps its envelope; once claimed it stays so, and once completed it does not change. */
  predicate TaskMoves(x: Task, y: Task) {
    && y == x.(state := y.state)
    && (WasClaimed(x.state) ==> WasClaimed(y.state)) && (WasCompleted(x.state) ==> y.state == x.state)
  }

  ghost predicate TasksMove(a: Board, b: Board) {
    forall id | id in a.tasks :: id in b.tasks && TaskMoves(a.tasks[id], b.tasks[id])
  }

  lemma StepMovesTasks(sign: Task -> string, a: Board, e: Event, b: Board)
    requires Next(sign, a, e, b)
    ensures TasksMove(a, b)
  {
  }

  lemma ClaimsStay(a: Board, b: Board)
    requires ClaimsOk(a) && TasksMove(a, b) && b.claims == a.claims
    ensures ClaimsOk(b)
  {
    forall k | 0 <= k < |b.claims|
      ensures ClaimOk(b, b.claims[k])
    {
      assert ClaimOk(a, a.claims[k]) && TaskMoves(a.tasks[a.claims[k].taskId], b.tasks[a.claims[k].taskId]);
    }
  }

  lemma CompletionsStay(a: Board, b: Board)
    requires CompletionsOk(a) && TasksMove(a, b) && b.completions == a.completions
    ensures CompletionsOk(b)
  {
    forall k | 0 <= k < |b.completions|
      ensures CompletionOk(b, b.completions[k])
    {
      assert CompletionOk(a, a.completions[k]) && TaskMoves(a.tasks[a.completions[k].taskId], b.tasks[a.completions[k].taskId]);
    }
  }

  lemma ClaimAdded(a: Board, b: Board, c: Claim)
    requires ClaimsOk(a) && TasksMove(a, b) && b.claims == a.claims + [c] && ClaimOk(b, c)
    requires c.taskId in a.tasks && !WasClaimed(a.tasks[c.taskId].state)
    ensures ClaimsOk(b)
  {
    forall k | 0 <= k < |b.claims|
      ensures ClaimOk(b, b.claims[k])
    {
      if k < |a.claims| {
        assert ClaimOk(a, a.claims[k]) && TaskMoves(a.tasks[a.claims[k].taskId], b.tasks[a.claims[k].taskId]);
      }
    }
    forall k, l | 0 <= k < l < |b.claims|
      ensures b.claims[k].taskId != b.claims[l].taskId
    {
      assert ClaimOk(a, a.claims[k]);
    }
  }

  lemma CompletionAdded(a: Board, b: Board, c: Completion)
    requires CompletionsOk(a) && TasksMove(a, b) && b.completions == a.completions + [c] && CompletionOk(b, c)
    requires c.taskId in a.tasks && !WasCompleted(a.tasks[c.taskId].state)
    ensures CompletionsOk(b)
  {
    forall k | 0 <= k < |b.completions|
      ensures CompletionOk(b, b.completions[k])
    {
      if k < |a.completions| {
        assert CompletionOk(a, a.completions[k]) && TaskMoves(a.tasks[a.completions[k].taskId], b.tasks[a.completions[k].taskId]);
      }
    }
    forall k, l | 0 <= k < l < |b.completions|
      ensures b.completions[k].taskId != b.completions[l].taskId
    {
      assert CompletionOk(a, a.completions[k]);
    }
  }

  lemma NonceAdded(a: Board, b: Board, agentId: string, nonce: string)
    requires NoncesOk(a) && (agentId, nonce) !in a.nonces
    requires b.nonces == a.nonces + {(agentId, nonce)} && b.accepted == a.accepted + [(agentId, nonce)]
    ensures NoncesOk(b)
  {
    assert (agentId, nonce) !in Elems(a.accepted);
    assert Elems(b.accepted) == Elems(a.accepted) + {(agentId, nonce)};
  }

  lemma StepKeepsSound(sign: Task -> string, a: Board, e: Event, b: Board)
    requires Sound(a) && Next(sign, a, e, b)
    ensures Sound(b)
  {
    StepMovesTasks(sign, a, e, b);
    if e.Claims? {
      ClaimAdded(a, b, b.claims[|a.claims|]);
      NonceAdded(a, b, e.agentId, e.nonce);
    } else {
      ClaimsStay(a, b);
      if e.Heartbeat? {
        NonceAdded(a, b, e.agentId, e.nonce);
      }
    }
    if e.Complete? {
      CompletionAdded(a, b, Completion(e.id, e.agentId));
    } else {
      CompletionsStay(a, b);
    }
  }

  ghost predicate IsRun(sign: Task -> string, states: seq<Board>, events: seq<Event>) {
    && |states| == |events| + 1
    && states[0].tasks == map[] && states[0].nonces == {} && states[0].accepted == [] && states[0].claims == [] && states[0].completions == []
    && forall k {:trigger StepAt(sign, states, events, k)} | 0 <= k < |events| :: StepAt(sign, states, events, k)
  }

  ghost predicate StepAt(sign: Task -> string, states: seq<Board>, events: seq<Event>, k: nat)
    requires |states| == |events| + 1 && k < |events|
  {
    Next(sign, states[k], events[k], states[k + 1])
  }

  lemma {:induction false} RunIsSound(sign: Task -> string, states: seq<Board>, events: seq<Event>, k: nat)
    requires IsRun(sign, states, events) && k < |states|
    ensures Sound(states[k])
  {
    if k > 0 {
      RunIsSound(sign, states, events, k - 1);
      assert StepAt(sign, states, events, k - 1);
      StepKeepsSound(sign, states[k - 1], events[k - 1], states[k]);
    }
  }

  /** In every run, a task is claimed at most once, by its own agent, under its own policy generation and plan hash. */
  lemma TaskIsClaimedOnce(sign: Task -> string, states: seq<Board>, events: seq<Event>, k: nat, m: nat, n: nat)
    requires IsRun(sign, states, events) && k < |states| && m <= n < |states[k].claims|
    ensures ClaimOk(states[k], states[k].claims[m])
    ensures states[k].claims[m].taskId == states[k].claims[n].taskId ==> m == n
  {
    RunIsSound(sign, states, events, k);
  }

  /** In every run, a task is completed at most once, by its own agent, and only after it was claimed. */
  lemma TaskIsCompletedOnce(sign: Task -> string, states: seq<Board>, events: seq<Event>, k: nat, m: nat, n: nat)
    requires IsRun(sign, states, events) && k < |states| && m <= n < |states[k].completions|
    ensures CompletionOk(states[k], states[k].completions[m])
    ensures states[k].completions[m].taskId == states[k].completions[n].taskId ==> m == n
  {
    RunIsSound(sign, states, events, k);
  }

  /** In every run, a nonce of an agent is accepted at most once, heartbeats and claims taken together. */
  lemma NonceIsAcceptedOnce(sign: Task -> string, states: seq<Board>, events: seq<Event>, k: nat, m: nat, n: nat)
    requires IsRun(sign, states, events) && k < |states| && m < n < |states[k].accepted|
    ensures states[k].accepted[m] != states[k].accepted[n]
  {
    RunIsSound(sign, states, events, k);
  }
}
