/**
  The package policy plugin: a prepared installation runs only while every answer to its prompt was a one-time
  approval (plugins/stack-package-policy/__init__.py:67-149). The session of each call, whether the context allows
  installation, and the installer's outcome are arbitrary.
 */
module PackagePlugin {
  import opened Wrappers
  import opened OneTime

  datatype State = Ready | ApprovalPending | ApprovedOnce | Cancelled

  /** One entry of the module's `_operations` dictionary. */
  datatype Item = Item(kind: string, package: string, version: string, session: string, state: State, ruleKey: Option<string>)

  /** Who calls, and whether `_context_problem` finds nothing wrong. */
  datatype Caller = Caller(session: string, allowed: bool)

  datatype Plugin = Plugin(operations: map<string, Item>, trail: seq<Entry>)

  predicate Kind(s: string) {
    s == "python" || s == "npm"
  }

  function RuleKey(id: string): string {
    "stack-package-install:" + id
  }

  lemma RuleKeyIsOwn(x: string, y: string)
    requires RuleKey(x) == RuleKey(y)
    ensures x == y
  {
    var n := |"stack-package-install:"|;
    assert RuleKey(x)[n..] == x && RuleKey(y)[n..] == y;
  }

  // ---- Steps ------------------------------------------------------------------------------------

  datatype Event =
    | Prepare(id: string, item: Item)
    | Ask(id: string, kind: string, who: Caller)
    | Respond(id: string, patternKey: string, choice: string)
    | Refuse(id: string, who: Caller)
    | Install(id: string, kind: string, who: Caller)

  predicate CanAsk(p: Plugin, id: string, kind: string, who: Caller) {
    && id in p.operations
    && var item := p.operations[id];
       item.kind == kind && item.state == Ready && item.session == who.session
  }

  /** The hook takes an answer while the prompt is open, and again after an approval. */
  predicate Addressed(p: Plugin, id: string, patternKey: string) {
    && id in p.operations && p.operations[id].ruleKey == Some(RuleOf(patternKey))
    && (p.operations[id].state == ApprovalPending || p.operations[id].state == ApprovedOnce)
  }

  predicate CanInstall(p: Plugin, id: string, kind: string, who: Caller) {
    && id in p.operations
    && var item := p.operations[id];
       item.kind == kind && item.state == ApprovedOnce && item.session == who.session && who.allowed
  }

  function WithItem(p: Plugin, id: string, item: Item, trail: seq<Entry>): Plugin {
    Plugin(p.operations[id := item], p.trail + trail)
  }

  ghost predicate Next(a: Plugin, e: Event, b: Plugin) {
    match e
    case Prepare(id, item) =>
      && id !in a.operations && HistoryOf(a.trail, id) == [] && Kind(item.kind) && item.state == Ready && item.ruleKey == None
      && b == WithItem(a, id, item, [Prepared(id, item.kind, item.session, "", (item.package, item.version))])
    case Ask(id, kind, who) =>
      && CanAsk(a, id, kind, who)
      && b == WithItem(a, id, a.operations[id].(state := ApprovalPending, ruleKey := Some(RuleKey(id))), [Prompt(id, RuleKey(id))])
    case Respond(id, patternKey, choice) =>
      && Addressed(a, id, patternKey)
      && b == WithItem(a, id, a.operations[id].(state := if choice == ONCE then ApprovedOnce else Cancelled), [Answer(id, RuleOf(patternKey), choice)])
    case Refuse(id, who) =>
      && id in a.operations && a.operations[id].state == ApprovedOnce && !CanInstall(a, id, a.operations[id].kind, who)
      && b == WithItem(a, id, a.operations[id].(state := Cancelled), [])
    case Install(id, kind, who) =>
      && CanInstall(a, id, kind, who)
      && b == Plugin(a.operations - {id}, a.trail + [Call(id, who.session, "", (a.operations[id].package, a.operations[id].version))])
  }

  // ---- The hooks and tools ------------------------------------------------------------------------

  class PackagePolicy {
    var operations: map<string, Item>
    ghost var trail: seq<Entry>

    ghost function State(): Plugin
      reads this
    {
      Plugin(operations, trail)
    }

    constructor ()
      ensures State() == Plugin(map[], [])
    {
      operations, trail := map[], [];
    }

    /** `_prepare`: `spec` is the package and version if the specification names an exact one; `id` is a fresh token. */
    method PrepareInstall(kind: string, spec: Option<(string, string)>, id: string, who: Caller) returns (ok: bool)
      requires Kind(kind) && id !in operations && HistoryOf(trail, id) == []
      modifies this
      ensures ok <==> who.allowed && spec.Some?
      ensures ok ==> id in operations && operations[id] == Item(kind, spec.value.0, spec.value.1, who.session, Ready, None)
      ensures if ok then Next(old(State()), Prepare(id, operations[id]), State())
              else State() == old(State())
    {
      if !who.allowed || spec.None? {
        return false;
      }
      operations := operations[id := Item(kind, spec.value.0, spec.value.1, who.session, Ready, None)];
      trail := trail + [Prepared(id, kind, who.session, "", spec.value)];
      return true;
    }

    /** `_pre_tool_call` on an install tool: the rule to approve, or a block. */
    method PreToolCall(kind: string, id: string, who: Caller) returns (rule: Option<string>)
      modifies this
      ensures rule.Some? <==> && id in old(operations)
                              && var item := old(operations)[id];
                                 item.kind == kind && item.state == Ready && item.session == who.session
      ensures if rule.Some? then Next(old(State()), Ask(id, kind, who), State()) && rule == Some("stack-package-install:" + id) else State() == old(State())
    {
      if id !in operations || operations[id].kind != kind || operations[id].state != Ready || operations[id].session != who.session {
        return None;
      }
      operations := operations[id := operations[id].(state := ApprovalPending, ruleKey := Some(RuleKey(id)))];
      trail := trail + [Prompt(id, RuleKey(id))];
      return Some(RuleKey(id));
    }

    /** `_post_approval_response`: the first operation under that rule that is waiting or approved gets the answer. */
    method PostApprovalResponse(patternKey: string, choice: string) returns (answered: Option<string>)
      modifies this
      ensures answered.Some? ==> Next(old(State()), Respond(answered.value, patternKey, choice), State())
      ensures answered.Some? ==> answered.value in operations && operations[answered.value].state == if choice == "once" then ApprovedOnce else Cancelled
      ensures answered.None? ==> State() == old(State()) && forall id :: !Addressed(State(), id, patternKey)
    {
      var key := RuleOf(patternKey);
      var rest := operations.Keys;
      while rest != {}
        invariant State() == old(State()) && rest <= operations.Keys
        invariant forall id | id in operations && id !in rest :: !Addressed(State(), id, patternKey)
        decreases |rest|
      {
        var id :| id in rest;
        var item := operations[id];
        if item.ruleKey == Some(key) && (item.state == ApprovedOnce || item.state == ApprovalPending) {
          operations := operations[id := item.(state := if choice == ONCE then ApprovedOnce else Cancelled)];
          trail := trail + [Answer(id, key, choice)];
          return Some(id);
        }
        rest := rest - {id};
      }
      return None;
    }

    /** `_install` up to the package manager: the operation is removed before the command runs. */
    method BeginInstall(kind: string, id: string, who: Caller) returns (exact: Option<(string, string)>)
      modifies this
      ensures exact.Some? <==> && id in old(operations) && who.allowed
                               && var item := old(operations)[id];
                                  item.kind == kind && item.state == ApprovedOnce && item.session == who.session
      ensures exact.Some? ==> Next(old(State()), Install(id, kind, who), State())
      ensures exact.Some? ==> exact.value == (old(operations)[id].package, old(operations)[id].version)
      ensures exact.None? ==> State() == old(State()) || Next(old(State()), Refuse(id, who), State())
      ensures id in old(operations) && old(operations)[id].kind == kind && old(operations)[id].state == ApprovedOnce ==>
                if exact.Some? then id !in operations else id in operations && operations[id].state == Cancelled
    {
      if id !in operations || operations[id].kind != kind || operations[id].state != ApprovedOnce {
        return None;
      }
      var item := operations[id];
      if item.session != who.session || !who.allowed {
        operations := operations[id := item.(state := Cancelled)];
        return None;
      }
      operations := operations - {id};
      trail := trail + [Call(id, who.session, "", (item.package, item.version))];
      return Some((item.package, item.version));
    }
  }

  // ---- Every run ----------------------------------------------------------------------------------

  /** Every entry from `i` up to `j` is an answer "once" to the operation's own rule. */
  predicate OnlyOnce(id: string, h: seq<Entry>, i: nat, j: int) {
    forall n | i <= n < j && n < |h| :: h[n] == Answer(id, RuleKey(id), "once")
  }

  /**
    A history is a prefix of: prepared, prompted, answered "once" any number of times, and then either one other
    answer, or, after at least one "once", the installation in the session that prepared it.
   */
  predicate Shaped(id: string, h: seq<Entry>) {
    && (|h| > 0 ==> h[0].Prepared? && h[0].id == id)
    && (|h| > 1 ==> h[1] == Prompt(id, RuleKey(id)))
    && (|h| > 2 ==> OnlyOnce(id, h, 2, |h| - 1))
    && (|h| > 2 ==> || (h[|h| - 1].Answer? && h[|h| - 1].id == id && h[|h| - 1].key == RuleKey(id))
                    || (|h| > 3 && h[|h| - 1] == Call(id, h[0].session, "", h[0].content)))
  }

  /** How far an operation has come, by its state. */
  predicate Tracks(id: string, item: Item, h: seq<Entry>) {
    && Shaped(id, h) && |h| > 0 && h[0] == Prepared(id, item.kind, item.session, "", (item.package, item.version))
    && match item.state
       case Ready => |h| == 1
       case ApprovalPending => |h| == 2 && item.ruleKey == Some(RuleKey(id))
       case ApprovedOnce => |h| > 2 && OnlyOnce(id, h, 2, |h|) && item.ruleKey == Some(RuleKey(id))
       case Cancelled => |h| > 2 && h[|h| - 1].Answer?
  }

  ghost predicate Sound(p: Plugin) {
    && (forall id | id in p.operations :: Tracks(id, p.operations[id], HistoryOf(p.trail, id)))
    && (forall id {:trigger HistoryOf(p.trail, id)} :: Shaped(id, HistoryOf(p.trail, id)))
  }

  /** The answer to a prompt, with the prefix of plugin rules or without, reaches the operation the prompt was shown for. */
  lemma PromptIsAnswered(a: Plugin, id: string, kind: string, who: Caller, b: Plugin)
    requires Next(a, Ask(id, kind, who), b)
    ensures b.trail == a.trail + [Prompt(id, RuleKey(id))]
    ensures Addressed(b, id, "plugin_rule:" + RuleKey(id)) && Addressed(b, id, RuleKey(id))
  {
    RuleOfPrefixed(RuleKey(id));
    RuleKeyStarts(id);
  }

  lemma RuleKeyStarts(id: string)
    ensures RuleKey(id) != [] && RuleKey(id)[0] == 's'
  {
  }

  lemma OneItem(a: Plugin, b: Plugin, id: string, item: Item, e: Entry)
    requires Sound(a) && b == WithItem(a, id, item, [e]) && e.id == id
    requires Tracks(id, item, HistoryOf(a.trail, id) + [e])
    ensures Sound(b)
  {
    forall x
      ensures Shaped(x, HistoryOf(b.trail, x)) && (x in b.operations ==> Tracks(x, b.operations[x], HistoryOf(b.trail, x)))
    {
      HistoryGrows(a.trail, e, x);
      assert Shaped(x, HistoryOf(a.trail, x));
    }
  }

  lemma AnswerExtends(id: string, item: Item, h: seq<Entry>, choice: string)
    requires Tracks(id, item, h) && (item.state == ApprovalPending || item.state == ApprovedOnce)
    ensures Tracks(id, item.(state := if choice == ONCE then ApprovedOnce else Cancelled), h + [Answer(id, RuleKey(id), choice)])
  {
  }

  lemma InstallKeepsSound(a: Plugin, b: Plugin, id: string, who: Caller)
    requires Sound(a) && id in a.operations && a.operations[id].state == ApprovedOnce && a.operations[id].session == who.session
    requires b == Plugin(a.operations - {id}, a.trail + [Call(id, who.session, "", (a.operations[id].package, a.operations[id].version))])
    ensures Sound(b)
  {
    var item := a.operations[id];
    forall x
      ensures Shaped(x, HistoryOf(b.trail, x)) && (x in b.operations ==> Tracks(x, b.operations[x], HistoryOf(b.trail, x)))
    {
      HistoryGrows(a.trail, Call(id, who.session, "", (item.package, item.version)), x);
      assert Shaped(x, HistoryOf(a.trail, x));
    }
  }

  lemma StepKeepsSound(a: Plugin, e: Event, b: Plugin)
    requires Sound(a) && Next(a, e, b)
    ensures Sound(b)
  {
    match e
    case Prepare(id, item) =>
      OneItem(a, b, id, item, Prepared(id, item.kind, item.session, "", (item.package, item.version)));
    case Ask(id, kind, who) =>
      OneItem(a, b, id, b.operations[id], Prompt(id, RuleKey(id)));
    case Respond(id, patternKey, choice) =>
      AnswerExtends(id, a.operations[id], HistoryOf(a.trail, id), choice);
      OneItem(a, b, id, b.operations[id], Answer(id, RuleOf(patternKey), choice));
    case Install(id, kind, who) =>
      InstallKeepsSound(a, b, id, who);
    case Refuse(id, who) =>
      assert b.trail == a.trail;
  }

  /** A key addresses one operation at most, so the loop's first match is its only one. */
  lemma OneAddressed(p: Plugin, x: string, y: string, patternKey: string)
    requires Sound(p) && Addressed(p, x, patternKey) && Addressed(p, y, patternKey)
    ensures x == y
  {
    assert Tracks(x, p.operations[x], HistoryOf(p.trail, x)) && Tracks(y, p.operations[y], HistoryOf(p.trail, y));
    RuleKeyIsOwn(x, y);
  }

  ghost predicate IsRun(states: seq<Plugin>, events: seq<Event>) {
    && |states| == |events| + 1 && states[0] == Plugin(map[], [])
    && forall k {:trigger StepAt(states, events, k)} | 0 <= k < |events| :: StepAt(states, events, k)
  }

  ghost predicate StepAt(states: seq<Plugin>, events: seq<Event>, k: nat)
    requires |states| == |events| + 1 && k < |events|
  {
    Next(states[k], events[k], states[k + 1])
  }

  lemma {:induction false} RunIsSound(states: seq<Plugin>, events: seq<Event>, k: nat)
    requires IsRun(states, events) && k < |states|
    ensures Sound(states[k])
  {
    if k > 0 {
      RunIsSound(states, events, k - 1);
      assert StepAt(states, events, k - 1);
      StepKeepsSound(states[k - 1], events[k - 1], states[k]);
    }
  }

  /**
    In every interleaving an installation is prompted at most once and runs at most once: last of all, in the
    session that prepared it, after at least one answer to its own rule, every one of them "once".
   */
  lemma InstallationRunsOnceAfterApproval(states: seq<Plugin>, events: seq<Event>, k: nat, id: string, n: nat)
    requires IsRun(states, events) && k < |states| && n < |HistoryOf(states[k].trail, id)|
    ensures var h := HistoryOf(states[k].trail, id);
            && (h[n].Prompt? <==> n == 1)
            && (h[n].Call? ==> n > 2 && n == |h| - 1 && h[0].Prepared? && h[n].session == h[0].session && h[n].content == h[0].content && OnlyOnce(id, h, 2, n))
  {
    RunIsSound(states, events, k);
    var h := HistoryOf(states[k].trail, id);
    assert Shaped(id, h);
    assert 2 <= n < |h| - 1 ==> h[n] == Answer(id, RuleKey(id), ONCE);
  }

  /** Any other answer than "once", taken before the installation, rules it out for good. */
  lemma OtherAnswerPreventsInstall(states: seq<Plugin>, events: seq<Event>, k: nat, id: string, answer: nat, n: nat)
    requires IsRun(states, events) && k < |states|
    requires var h := HistoryOf(states[k].trail, id);
             answer < |h| && h[answer].Answer? && h[answer].choice != "once" && n < |h|
    ensures !HistoryOf(states[k].trail, id)[n].Call? && answer == |HistoryOf(states[k].trail, id)| - 1
  {
    RunIsSound(states, events, k);
    var h := HistoryOf(states[k].trail, id);
    assert Shaped(id, h);
    assert answer > 1;
    assert n < |h| - 1 && n > 1 ==> h[n] == Answer(id, RuleKey(id), ONCE);
  }
}
