/**
  The execution policy plugin: a prepared operation reaches the broker only after a one-time approval
  (plugins/stack-execution-policy/__init__.py:145-239). The session and user of each call, whether the context
  allows execution, and the broker's replies are arbitrary.
 */
module ExecutionPlugin {
  import opened Wrappers
  import opened OneTime

  datatype State = Ready | ApprovalPending | ApprovedOnce | Consumed | Cancelled

  /** One entry of the module's `_pending` dictionary. */
  datatype Item = Item(feature: string, capability: string, digest: string, session: string, user: string, state: State, ruleKey: Option<string>)

  /** Who calls, and whether `_context_problem` finds nothing wrong. */
  datatype Caller = Caller(session: string, user: string, allowed: bool)

  datatype Plugin = Plugin(pending: map<string, Item>, trail: seq<Entry>)

  predicate Feature(s: string) {
    s == "local" || s == "ssh" || s == "docker"
  }

  function RuleKey(feature: string, id: string): string {
    "stack-execution:" + feature + ":" + id
  }

  lemma RuleKeyIsOwn(f: string, x: string, g: string, y: string)
    requires Feature(f) && Feature(g) && RuleKey(f, x) == RuleKey(g, y)
    ensures f == g && x == y
  {
    var n := |"stack-execution:"|;
    assert RuleKey(f, x)[n] == f[0] && RuleKey(g, y)[n] == g[0];
    assert RuleKey(f, x)[n + |f| + 1..] == x && RuleKey(g, y)[n + |g| + 1..] == y;
  }

  // ---- Steps ------------------------------------------------------------------------------------

  datatype Event =
    | Prepare(id: string, feature: string, capability: string, digest: string, who: Caller)
    | Ask(id: string, feature: string, who: Caller)
    | Respond(id: string, patternKey: string, choice: string)
    | Refuse(id: string, who: Caller)
    | Consume(id: string, feature: string, who: Caller)
    | Drop(id: string)

  predicate CanAsk(p: Plugin, id: string, feature: string, who: Caller) {
    && id in p.pending
    && var item := p.pending[id];
       item.feature == feature && item.state == Ready && item.session == who.session && item.user == who.user
  }

  predicate Addressed(p: Plugin, id: string, patternKey: string) {
    id in p.pending && p.pending[id].ruleKey == Some(RuleOf(patternKey)) && p.pending[id].state == ApprovalPending
  }

  predicate CanConsume(p: Plugin, id: string, feature: string, who: Caller) {
    && id in p.pending
    && var item := p.pending[id];
       item.feature == feature && item.state == ApprovedOnce && item.session == who.session && item.user == who.user && who.allowed
  }

  function WithItem(p: Plugin, id: string, item: Item, trail: seq<Entry>): Plugin {
    Plugin(p.pending[id := item], p.trail + trail)
  }

  ghost predicate Next(a: Plugin, e: Event, b: Plugin) {
    match e
    case Prepare(id, feature, capability, digest, who) =>
      && id !in a.pending && HistoryOf(a.trail, id) == [] && Feature(feature)
      && b == WithItem(a, id, Item(feature, capability, digest, who.session, who.user, Ready, None), [Prepared(id, feature, who.session, who.user, (capability, digest))])
    case Ask(id, feature, who) =>
      && CanAsk(a, id, feature, who)
      && b == WithItem(a, id, a.pending[id].(state := ApprovalPending, ruleKey := Some(RuleKey(feature, id))), [Prompt(id, RuleKey(feature, id))])
    case Respond(id, patternKey, choice) =>
      && Addressed(a, id, patternKey)
      && b == WithItem(a, id, a.pending[id].(state := if choice == ONCE then ApprovedOnce else Cancelled), [Answer(id, RuleOf(patternKey), choice)])
    case Refuse(id, who) =>
      && id in a.pending && a.pending[id].state == ApprovedOnce && !CanConsume(a, id, a.pending[id].feature, who)
      && b == WithItem(a, id, a.pending[id].(state := Cancelled), [])
    case Consume(id, feature, who) =>
      && CanConsume(a, id, feature, who)
      && b == WithItem(a, id, a.pending[id].(state := Consumed), [Call(id, who.session, who.user, (a.pending[id].capability, a.pending[id].digest))])
    case Drop(id) =>
      id in a.pending && a.pending[id].state == Consumed && b == a.(pending := a.pending - {id})
  }

  // ---- The hooks and tools ------------------------------------------------------------------------

  class ExecutionPolicy {
    var pending: map<string, Item>
    ghost var trail: seq<Entry>

    ghost function State(): Plugin
      reads this
    {
      Plugin(pending, trail)
    }

    constructor ()
      ensures State() == Plugin(map[], [])
    {
      pending, trail := map[], [];
    }

    /** `_prepare`: `reply` is the broker's capability and digest, absent if it refused; `id` is a fresh token. */
    method PrepareOperation(feature: string, id: string, reply: Option<(string, string)>, who: Caller) returns (ok: bool)
      requires Feature(feature) && id !in pending && HistoryOf(trail, id) == []
      modifies this
      ensures ok <==> who.allowed && reply.Some? && reply.value.0 != "" && reply.value.1 != ""
      ensures if ok then Next(old(State()), Prepare(id, feature, reply.value.0, reply.value.1, who), State()) else State() == old(State())
    {
      if !who.allowed || reply.None? || reply.value.0 == "" || reply.value.1 == "" {
        return false;
      }
      pending := pending[id := Item(feature, reply.value.0, reply.value.1, who.session, who.user, Ready, None)];
      trail := trail + [Prepared(id, feature, who.session, who.user, reply.value)];
      return true;
    }

    /** `_pre_tool_call` on an execute tool: the rule to approve, or a block. */
    method PreToolCall(feature: string, id: string, who: Caller) returns (rule: Option<string>)
      modifies this
      ensures rule.Some? <==> && id in old(pending)
                              && var item := old(pending)[id];
                                 item.feature == feature && item.state == Ready && item.session == who.session && item.user == who.user
      ensures if rule.Some? then Next(old(State()), Ask(id, feature, who), State()) && rule == Some("stack-execution:" + feature + ":" + id) else State() == old(State())
    {
      if id !in pending || pending[id].feature != feature || pending[id].state != Ready {
        return None;
      }
      if pending[id].session != who.session || pending[id].user != who.user {
        return None;
      }
      pending := pending[id := pending[id].(state := ApprovalPending, ruleKey := Some(RuleKey(feature, id)))];
      trail := trail + [Prompt(id, RuleKey(feature, id))];
      return Some(RuleKey(feature, id));
    }

    /** `_post_approval_response`: the first operation waiting under that rule gets the answer. */
    method PostApprovalResponse(patternKey: string, choice: string) returns (answered: Option<string>)
      modifies this
      ensures answered.Some? ==> Next(old(State()), Respond(answered.value, patternKey, choice), State())
      ensures answered.Some? ==> answered.value in pending && pending[answered.value].state == if choice == "once" then ApprovedOnce else Cancelled
      ensures answered.None? ==> State() == old(State()) && forall id :: !Addressed(State(), id, patternKey)
    {
      var key := RuleOf(patternKey);
      var rest := pending.Keys;
      while rest != {}
        invariant State() == old(State()) && rest <= pending.Keys
        invariant forall id | id in pending && id !in rest :: !Addressed(State(), id, patternKey)
        decreases |rest|
      {
        var id :| id in rest;
        if pending[id].ruleKey == Some(key) && pending[id].state == ApprovalPending {
          pending := pending[id := pending[id].(state := if choice == ONCE then ApprovedOnce else Cancelled)];
          trail := trail + [Answer(id, key, choice)];
          return Some(id);
        }
        rest := rest - {id};
      }
      return None;
    }

    /** `_execute` up to the broker call: the operation is consumed before it is handed over. */
    method BeginExecution(feature: string, id: string, who: Caller) returns (sealed: Option<(string, string)>)
      modifies this
      ensures sealed.Some? <==> && id in old(pending) && who.allowed
                                && var item := old(pending)[id];
                                   item.feature == feature && item.state == ApprovedOnce && item.session == who.session && item.user == who.user
      ensures sealed.Some? ==> Next(old(State()), Consume(id, feature, who), State())
      ensures sealed.Some? ==> sealed.value == (old(pending)[id].capability, old(pending)[id].digest)
      ensures sealed.None? ==> State() == old(State()) || Next(old(State()), Refuse(id, who), State())
      ensures id in old(pending) && old(pending)[id].feature == feature && old(pending)[id].state == ApprovedOnce ==>
                id in pending && pending[id].state == if sealed.Some? then Consumed else Cancelled
    {
      if id !in pending || pending[id].feature != feature || pending[id].state != ApprovedOnce {
        return None;
      }
      var item := pending[id];
      if who.session != item.session || who.user != item.user || !who.allowed {
        pending := pending[id := item.(state := Cancelled)];
        return None;
      }
      pending := pending[id := item.(state := Consumed)];
      trail := trail + [Call(id, who.session, who.user, (item.capability, item.digest))];
      return Some((item.capability, item.digest));
    }

    /** `_execute` after the broker call, whatever it returned. */
    method EndExecution(id: string)
      requires id in pending && pending[id].state == Consumed
      modifies this
      ensures Next(old(State()), Drop(id), State())
    {
      pending := pending - {id};
    }
  }

  // ---- Every run ----------------------------------------------------------------------------------

  /** A history is a prefix of: prepared, prompted, answered, and after "once" called by the session and user that prepared it. */
  predicate Shaped(id: string, h: seq<Entry>) {
    && |h| <= 4
    && (|h| > 0 ==> h[0].Prepared? && h[0].id == id && Feature(h[0].kind))
    && (|h| > 1 ==> h[1] == Prompt(id, RuleKey(h[0].kind, id)))
    && (|h| > 2 ==> h[2].Answer? && h[2].id == id && h[2].key == RuleKey(h[0].kind, id))
    && (|h| > 3 ==> h[2].choice == ONCE && h[3] == Call(id, h[0].session, h[0].user, h[0].content))
  }

  /** How far an operation has come, by its state. */
  predicate Tracks(id: string, item: Item, h: seq<Entry>) {
    && Shaped(id, h) && |h| > 0 && h[0] == Prepared(id, item.feature, item.session, item.user, (item.capability, item.digest))
    && match item.state
       case Ready => |h| == 1
       case ApprovalPending => |h| == 2 && item.ruleKey == Some(RuleKey(item.feature, id))
       case ApprovedOnce => |h| == 3 && h[2].choice == ONCE
       case Consumed => |h| == 4
       case Cancelled => |h| == 3
  }

  ghost predicate Sound(p: Plugin) {
    && (forall id | id in p.pending :: Tracks(id, p.pending[id], HistoryOf(p.trail, id)))
    && (forall id {:trigger HistoryOf(p.trail, id)} :: Shaped(id, HistoryOf(p.trail, id)))
  }

  /** The answer to a prompt, with the prefix of plugin rules or without, reaches the operation the prompt was shown for. */
  lemma PromptIsAnswered(a: Plugin, id: string, feature: string, who: Caller, b: Plugin)
    requires Next(a, Ask(id, feature, who), b) && Feature(feature)
    ensures b.trail == a.trail + [Prompt(id, RuleKey(feature, id))]
    ensures Addressed(b, id, "plugin_rule:" + RuleKey(feature, id)) && Addressed(b, id, RuleKey(feature, id))
  {
    RuleOfPrefixed(RuleKey(feature, id));
    RuleKeyStarts(feature, id);
  }

  lemma RuleKeyStarts(feature: string, id: string)
    ensures RuleKey(feature, id) != [] && RuleKey(feature, id)[0] == 's'
  {
  }

  lemma OneItem(a: Plugin, b: Plugin, id: string, item: Item, e: Entry)
    requires Sound(a) && b == WithItem(a, id, item, [e]) && e.id == id
    requires Tracks(id, item, HistoryOf(a.trail, id) + [e])
    ensures Sound(b)
  {
    forall x
      ensures Shaped(x, HistoryOf(b.trail, x)) && (x in b.pending ==> Tracks(x, b.pending[x], HistoryOf(b.trail, x)))
    {
      HistoryGrows(a.trail, e, x);
      assert Shaped(x, HistoryOf(a.trail, x));
    }
  }

  lemma AnswerIsOwn(p: Plugin, id: string, patternKey: string)
    requires Sound(p) && Addressed(p, id, patternKey)
    ensures RuleOf(patternKey) == RuleKey(p.pending[id].feature, id)
  {
  }

  /** A key addresses one operation at most, so the loop's first match is its only one. */
  lemma OneAddressed(p: Plugin, x: string, y: string, patternKey: string)
    requires Sound(p) && Addressed(p, x, patternKey) && Addressed(p, y, patternKey)
    ensures x == y
  {
    AnswerIsOwn(p, x, patternKey);
    AnswerIsOwn(p, y, patternKey);
    assert Tracks(x, p.pending[x], HistoryOf(p.trail, x)) && Tracks(y, p.pending[y], HistoryOf(p.trail, y));
    RuleKeyIsOwn(p.pending[x].feature, x, p.pending[y].feature, y);
  }

  lemma AnswerKeepsSound(a: Plugin, e: Event, b: Plugin)
    requires Sound(a) && Next(a, e, b) && e.Respond?
    ensures Sound(b)
  {
    AnswerIsOwn(a, e.id, e.patternKey);
    OneItem(a, b, e.id, b.pending[e.id], Answer(e.id, RuleOf(e.patternKey), e.choice));
  }

  lemma SilentKeepsSound(a: Plugin, e: Event, b: Plugin)
    requires Sound(a) && Next(a, e, b) && (e.Refuse? || e.Drop?)
    ensures Sound(b)
  {
    assert b.trail == a.trail;
  }

  lemma StepKeepsSound(a: Plugin, e: Event, b: Plugin)
    requires Sound(a) && Next(a, e, b)
    ensures Sound(b)
  {
    match e
    case Prepare(id, feature, capability, digest, who) =>
      OneItem(a, b, id, b.pending[id], Prepared(id, feature, who.session, who.user, (capability, digest)));
    case Ask(id, feature, who) =>
      OneItem(a, b, id, b.pending[id], Prompt(id, RuleKey(feature, id)));
    case Respond(_, _, _) => AnswerKeepsSound(a, e, b);
    case Consume(id, feature, who) =>
      OneItem(a, b, id, b.pending[id], Call(id, who.session, who.user, (a.pending[id].capability, a.pending[id].digest)));
    case Refuse(_, _) => SilentKeepsSound(a, e, b);
    case Drop(_) => SilentKeepsSound(a, e, b);
  }

  ghost predicate IsRun(states: seq<Plugin>, events: seq<Event>) {
    && |states| == |events| + 1 && states[0] == Plugin(map[], [])
    && forall k {:trigger StepAt(states, events, k)} | 0 <= k < |events| :: StepAt(states, events, k)
  }

  ghost predicate StepAt(states: seq<Plugin>, events: seq<Event>, k: nat)
    requires |states| == |events| + 1 && k < |events|
  {
    Next(states[k], events[k], states[k + 1])
  }

  lemma {:induction false} RunIsSound(states: seq<Plugin>, events: seq<Event>, k: nat)
    requires IsRun(states, events) && k < |states|
    ensures Sound(states[k])
  {
    if k > 0 {
      RunIsSound(states, events, k - 1);
      assert StepAt(states, events, k - 1);
      StepKeepsSound(states[k - 1], events[k - 1], states[k]);
    }
  }

  /**
    In every interleaving, whatever happened to an operation is a prefix of: prepared once, prompted once, answered
    once, and, only if that answer was "once" to its own rule, called once for the session and user that prepared it.
   */
  lemma OperationRunsOnceAfterApproval(states: seq<Plugin>, events: seq<Event>, k: nat, id: string)
    requires IsRun(states, events) && k < |states|
    ensures Shaped(id, HistoryOf(states[k].trail, id))
  {
    RunIsSound(states, events, k);
  }

  /** Behind every broker call stands an earlier "once" to the operation's own rule, behind that the one prompt, behind that its preparation. */
  lemma CallHasApproval(states: seq<Plugin>, events: seq<Event>, k: nat, call: nat) returns (prepared: nat, prompt: nat, answer: nat)
    requires IsRun(states, events) && k < |states| && call < |states[k].trail| && states[k].trail[call].Call?
    ensures prepared < prompt < answer < call
    ensures var t, id := states[k].trail, states[k].trail[call].id;
            && t[prepared].Prepared? && t[prepared].id == id
            && t[prepared].session == t[call].session && t[prepared].user == t[call].user && t[prepared].content == t[call].content
            && t[prompt] == Prompt(id, RuleKey(t[prepared].kind, id))
            && t[answer] == Answer(id, RuleKey(t[prepared].kind, id), "once")
  {
    RunIsSound(states, events, k);
    var t, id := states[k].trail, states[k].trail[call].id;
    var upTo := t[..call + 1];
    CallEndsHistory(t, call, id);
    var h := HistoryOf(upTo, id);
    answer := EntryInTrail(upTo, id, 2);
    prompt := EntryInTrail(upTo[..answer], id, 1);
    prepared := EntryInTrail(upTo[..answer][..prompt], id, 0);
  }

  /** A call is the fourth entry of its history, and nothing follows it. */
  lemma {:induction false} CallEndsHistory(t: seq<Entry>, call: nat, id: string)
    requires call < |t| && t[call].Call? && t[call].id == id && Shaped(id, HistoryOf(t, id))
    ensures HistoryOf(t[..call + 1], id) == HistoryOf(t, id) && |HistoryOf(t, id)| == 4
    ensures HistoryOf(t[..call], id) == HistoryOf(t, id)[..3]
    decreases |t|
  {
    var front := t[..|t| - 1];
    if call == |t| - 1 {
      assert t[..call + 1] == t && t[..call] == front;
    } else {
      assert front[call] == t[call];
      CallEndsHistory(front, call, id);
      assert front[..call + 1] == t[..call + 1] && front[..call] == t[..call];
    }
  }
}
