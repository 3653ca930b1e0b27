/** What the approval plugins leave behind: the trail of what happened to each prepared operation. */
module OneTime {

  /**
    An operation was prepared, a prompt shown for it, an answer to that prompt taken, or the operation handed to
    the broker or the installer. Callers are named by session and user, and `content` is what was prepared and what
    is handed over: a capability and its digest, or a package and its version.
   */
  datatype Entry =
    | Prepared(id: string, kind: string, session: string, user: string, content: (string, string))
    | Prompt(id: string, key: string)
    | Answer(id: string, key: string, choice: string)
    | Call(id: string, session: string, user: string, content: (string, string))

  const ONCE := "once"

  /** What happened to one operation, in order. */
  ghost function HistoryOf(trail: seq<Entry>, id: string): seq<Entry> {
    if trail == [] then []
    else
      var last := trail[|trail| - 1];
      HistoryOf(trail[..|trail| - 1], id) + if last.id == id then [last] else []
  }

  lemma HistoryGrows(trail: seq<Entry>, e: Entry, id: string)
    ensures HistoryOf(trail + [e], id) == HistoryOf(trail, id) + if e.id == id then [e] else []
  {
    assert (trail + [e])[..|trail|] == trail;
  }

  /** Where the `n`-th entry of a history stands in the trail. */
  lemma {:induction false} EntryInTrail(trail: seq<Entry>, id: string, n: nat) returns (k: nat)
    requires n < |HistoryOf(trail, id)|
    ensures k < |trail| && trail[k] == HistoryOf(trail, id)[n] && trail[k].id == id
    ensures HistoryOf(trail[..k], id) == HistoryOf(trail, id)[..n]
  {
    var front := trail[..|trail| - 1];
    if n < |HistoryOf(front, id)| {
      k := EntryInTrail(front, id, n);
      assert front[..k] == trail[..k];
    } else {
      k := |trail| - 1;
    }
  }

  /** The pattern key of an approval response names the rule behind a common prefix. */
  function RuleOf(patternKey: string): string {
    if "plugin_rule:" <= patternKey then patternKey[|"plugin_rule:"|..] else patternKey
  }

  /** One prefix is taken off; a key that does not begin like one is left alone. */
  lemma RuleOfPrefixed(rule: string)
    ensures RuleOf("plugin_rule:" + rule) == rule
    ensures rule == [] || rule[0] != 'p' ==> RuleOf(rule) == rule
  {
  }
}
