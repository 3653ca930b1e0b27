/**
  The choice of approvals a start consumes (main.py:2570-2583, 3906-3920): of the unspent approvals of the
  plan, oldest first, the first valid one of each approver, until the quorum is full.
 */
module Approvals {
  import opened Ordering
  import opened Wrappers
  import opened Tables

  lemma EarlierStrictTotal(d: Db)
    ensures StrictTotal((x, y) => Earlier(d, x, y))
  {
    var less := (x, y) => Earlier(d, x, y);
    forall x, y
      ensures !less(x, x) && (x == y || less(x, y) || less(y, x))
    {
      StrLessIrreflexive(x);
      StrLessTotal(x, y);
    }
    forall x, y, z | less(x, y) && less(y, z)
      ensures less(x, z)
    {
      EarlierTransitive(d, x, y, z);
    }
  }

  lemma EarlierTransitive(d: Db, x: string, y: string, z: string)
    requires Earlier(d, x, y) && Earlier(d, y, z)
    ensures Earlier(d, x, z)
  {
    if StrLess(x, y) && StrLess(y, z) {
      StrLessTransitive(x, y, z);
    }
  }

  /** The rows the query selects. */
  predicate Selected(d: Db, id: string, i: string)
    requires id in d.changesets
  {
    && i in d.approvals
    && var a := d.approvals[i];
       a.changesetId == id && a.planHash == d.changesets[id].planHash && a.status == Granted && a.consumedAt == None
  }

  /** `SELECT ... ORDER BY issued_at ASC, id ASC`. */
  method SelectRows(d: Db, id: string) returns (rows: seq<string>)
    requires id in d.changesets
    ensures Increasing((x, y) => Earlier(d, x, y), rows)
    ensures forall i :: i in rows <==>
              && i in d.approvals && d.approvals[i].changesetId == id && d.approvals[i].planHash == d.changesets[id].planHash
              && d.approvals[i].status == Granted && d.approvals[i].consumedAt == None
  {
    var rest := set i | i in d.approvals && Selected(d, id, i);
    ghost var all := rest;
    rows := [];
    while rest != {}
      invariant Distinct(rows) && rest <= all
      invariant forall i :: i in rows <==> i in all - rest
      decreases |rest|
    {
      var i :| i in rest;
      assert i !in rows;
      rows, rest := rows + [i], rest - {i};
    }
    var less := (x, y) => Earlier(d, x, y);
    EarlierStrictTotal(d);
    SortDistinct(less, rows);
    ghost var unsorted := rows;
    rows := Sort(less, rows);
    assert forall i :: i in rows <==> i in Elems(rows);
    assert forall i :: i in unsorted <==> i in Elems(unsorted);
  }

  // ---- One valid approval per approver ------------------------------------------------------------

  ghost function ValidApprovers(w: World, d: Db, id: string): set<string>
    requires id in d.changesets
  {
    set i | i in d.approvals && Valid(w, d, id, i) :: ApproverOf(d, i)
  }

  ghost predicate Among(rows: seq<string>, k: nat, x: string)
    requires k <= |rows|
  {
    exists r :: 0 <= r < k && rows[r] == x
  }

  /** `chosen` has the first valid row of each approver among the first `k`. */
  ghost predicate FirstOfEach(w: World, d: Db, id: string, rows: seq<string>, k: nat, chosen: seq<string>)
    requires id in d.changesets && k <= |rows|
  {
    && (forall n | 0 <= n < |chosen| :: Valid(w, d, id, chosen[n]) && Among(rows, k, chosen[n]))
    && InOrder(d, chosen)
    && (forall r | 0 <= r < k && Valid(w, d, id, rows[r]) :: Represented(d, chosen, rows[r]))
  }

  /** An approval is chosen, or an earlier one of the same approver is. */
  ghost predicate Represented(d: Db, chosen: seq<string>, x: string) {
    exists n :: 0 <= n < |chosen| && ApproverOf(d, chosen[n]) == ApproverOf(d, x) && (chosen[n] == x || Earlier(d, chosen[n], x))
  }

  lemma RepresentedAppend(d: Db, chosen: seq<string>, y: string, x: string)
    requires Represented(d, chosen, x) || x == y
    ensures Represented(d, chosen + [y], x)
  {
    if x == y {
      assert (chosen + [y])[|chosen|] == x;
    } else {
      var n :| 0 <= n < |chosen| && ApproverOf(d, chosen[n]) == ApproverOf(d, x) && (chosen[n] == x || Earlier(d, chosen[n], x));
      assert (chosen + [y])[n] == chosen[n];
    }
  }

  lemma AmongMore(rows: seq<string>, k: nat, x: string)
    requires k < |rows| && (Among(rows, k, x) || x == rows[k])
    ensures Among(rows, k + 1, x)
  {
    if Among(rows, k, x) {
      var r :| 0 <= r < k && rows[r] == x;
    }
  }

  lemma OrderedAppend(d: Db, rows: seq<string>, k: nat, chosen: seq<string>)
    requires k < |rows| && Increasing((x, y) => Earlier(d, x, y), rows) && InOrder(d, chosen)
    requires forall n | 0 <= n < |chosen| :: Among(rows, k, chosen[n]) && ApproverOf(d, chosen[n]) != ApproverOf(d, rows[k])
    ensures InOrder(d, chosen + [rows[k]])
  {
    var next := chosen + [rows[k]];
    forall m, n | 0 <= m < n < |next|
      ensures Earlier(d, next[m], next[n]) && ApproverOf(d, next[m]) != ApproverOf(d, next[n])
    {
      if n == |chosen| {
        assert Among(rows, k, chosen[m]);
        var r :| 0 <= r < k && rows[r] == chosen[m];
        assert ((x, y) => Earlier(d, x, y))(rows[r], rows[k]);
      }
    }
  }

  lemma ChooseNext(w: World, d: Db, id: string, rows: seq<string>, k: nat, chosen: seq<string>)
    requires id in d.changesets && k < |rows| && Increasing((x, y) => Earlier(d, x, y), rows)
    requires FirstOfEach(w, d, id, rows, k, chosen) && Valid(w, d, id, rows[k])
    requires forall n | 0 <= n < |chosen| :: ApproverOf(d, chosen[n]) != ApproverOf(d, rows[k])
    ensures FirstOfEach(w, d, id, rows, k + 1, chosen + [rows[k]])
  {
    var next := chosen + [rows[k]];
    OrderedAppend(d, rows, k, chosen);
    forall n | 0 <= n < |next|
      ensures Valid(w, d, id, next[n]) && Among(rows, k + 1, next[n])
    {
      AmongMore(rows, k, next[n]);
    }
    forall r | 0 <= r < k + 1 && Valid(w, d, id, rows[r])
      ensures Represented(d, next, rows[r])
    {
      RepresentedAppend(d, chosen, rows[k], rows[r]);
    }
  }

  lemma RepresentedByEarlier(d: Db, rows: seq<string>, k: nat, chosen: seq<string>, n: nat)
    requires k < |rows| && n < |chosen| && Increasing((x, y) => Earlier(d, x, y), rows)
    requires Among(rows, k, chosen[n]) && ApproverOf(d, chosen[n]) == ApproverOf(d, rows[k])
    ensures Represented(d, chosen, rows[k])
  {
    var r :| 0 <= r < k && rows[r] == chosen[n];
    assert ((x, y) => Earlier(d, x, y))(rows[r], rows[k]);
  }

  lemma PassOver(w: World, d: Db, id: string, rows: seq<string>, k: nat, chosen: seq<string>)
    requires id in d.changesets && k < |rows| && FirstOfEach(w, d, id, rows, k, chosen)
    requires Valid(w, d, id, rows[k]) ==> Represented(d, chosen, rows[k])
    ensures FirstOfEach(w, d, id, rows, k + 1, chosen)
  {
    forall n | 0 <= n < |chosen|
      ensures Among(rows, k + 1, chosen[n])
    {
      AmongMore(rows, k, chosen[n]);
    }
  }

  /** `valid_by_approver`, in the order its keys were inserted. */
  method ChoosePerApprover(w: World, d: Db, id: string, rows: seq<string>) returns (chosen: seq<string>)
    requires id in d.changesets && Increasing((x, y) => Earlier(d, x, y), rows)
    ensures FirstOfEach(w, d, id, rows, |rows|, chosen)
  {
    chosen := [];
    var seen: set<string> := {};
    for k := 0 to |rows|
      invariant FirstOfEach(w, d, id, rows, k, chosen)
      invariant forall a :: a in seen <==> exists n :: 0 <= n < |chosen| && ApproverOf(d, chosen[n]) == a
    {
      if ApproverOf(d, rows[k]) !in seen && Valid(w, d, id, rows[k]) {
        ChooseNext(w, d, id, rows, k, chosen);
        SeenAlso(d, chosen, seen, rows[k]);
        chosen, seen := chosen + [rows[k]], seen + {ApproverOf(d, rows[k])};
      } else {
        if n :| 0 <= n < |chosen| && ApproverOf(d, chosen[n]) == ApproverOf(d, rows[k]) {
          RepresentedByEarlier(d, rows, k, chosen, n);
        }
        PassOver(w, d, id, rows, k, chosen);
      }
    }
  }

  lemma SeenAlso(d: Db, chosen: seq<string>, seen: set<string>, y: string)
    requires forall a :: a in seen <==> exists n :: 0 <= n < |chosen| && ApproverOf(d, chosen[n]) == a
    ensures forall a :: a in seen + {ApproverOf(d, y)} <==> exists n :: 0 <= n < |chosen + [y]| && ApproverOf(d, (chosen + [y])[n]) == a
  {
    forall a
      ensures a in seen + {ApproverOf(d, y)} <==> exists n :: 0 <= n < |chosen + [y]| && ApproverOf(d, (chosen + [y])[n]) == a
    {
      var next := chosen + [y];
      assert next[|chosen|] == y;
      if n :| 0 <= n < |chosen| && ApproverOf(d, chosen[n]) == a {
        assert next[n] == chosen[n];
      }
    }
  }

  lemma PrefixOutranks(d: Db, chosen: seq<string>, required: nat, x: string)
    requires required <= |chosen| && Represented(d, chosen, x) && InOrder(d, chosen)
    ensures Outranked(d, chosen[..required], x)
  {
    var ids := chosen[..required];
    var n :| 0 <= n < |chosen| && ApproverOf(d, chosen[n]) == ApproverOf(d, x) && (chosen[n] == x || Earlier(d, chosen[n], x));
    if n < required {
      assert ids[n] == chosen[n];
    } else {
      forall m | 0 <= m < required
        ensures Earlier(d, ids[m], x)
      {
        assert Earlier(d, chosen[m], chosen[n]);
        if chosen[n] != x {
          EarlierTransitive(d, chosen[m], chosen[n], x);
        }
      }
    }
  }

  lemma PrefixPicks(w: World, d: Db, id: string, rows: seq<string>, chosen: seq<string>, required: nat)
    requires id in d.changesets && FirstOfEach(w, d, id, rows, |rows|, chosen) && required <= |chosen|
    requires forall x | Valid(w, d, id, x) :: x in rows
    ensures Picks(w, d, id, chosen[..required])
  {
    forall x | Valid(w, d, id, x)
      ensures Outranked(d, chosen[..required], x)
    {
      var r :| 0 <= r < |rows| && rows[r] == x;
      assert Represented(d, chosen, rows[r]);
      PrefixOutranks(d, chosen, required, x);
    }
  }

  lemma ChosenApprovers(w: World, d: Db, id: string, rows: seq<string>, chosen: seq<string>)
    requires id in d.changesets && FirstOfEach(w, d, id, rows, |rows|, chosen)
    requires forall x | Valid(w, d, id, x) :: x in rows
    ensures |ValidApprovers(w, d, id)| == |chosen|
  {
    var names := seq(|chosen|, n requires 0 <= n < |chosen| => ApproverOf(d, chosen[n]));
    assert Distinct(names);
    DistinctCardinality(names);
    forall a
      ensures a in ValidApprovers(w, d, id) <==> a in Elems(names)
    {
      if i :| i in d.approvals && Valid(w, d, id, i) && ApproverOf(d, i) == a {
        var r :| 0 <= r < |rows| && rows[r] == i;
        assert Represented(d, chosen, rows[r]);
        var n :| 0 <= n < |chosen| && ApproverOf(d, chosen[n]) == a;
        assert names[n] == a;
      }
      if a in names {
        var n :| 0 <= n < |names| && names[n] == a;
        assert Valid(w, d, id, chosen[n]);
      }
    }
    assert ValidApprovers(w, d, id) == Elems(names);
  }

  /** `_valid_operation_approval_ids`: the quorum, or nothing where the source raises. */
  method ValidApprovalIds(w: World, d: Db, id: string) returns (ids: Option<seq<string>>)
    requires id in d.changesets
    ensures ids.Some? <==> (d.changesets[id].approvalRequired ==> |ValidApprovers(w, d, id)| >= Required(d.changesets[id]))
    ensures ids.Some? ==> QuorumIs(w, d, id, ids.value)
  {
    if !d.changesets[id].approvalRequired {
      return Some([]);
    }
    var rows := SelectRows(d, id);
    var chosen := ChoosePerApprover(w, d, id, rows);
    assert forall x | Valid(w, d, id, x) :: Selected(d, id, x);
    ChosenApprovers(w, d, id, rows, chosen);
    if |chosen| < Required(d.changesets[id]) {
      return None;
    }
    PrefixPicks(w, d, id, rows, chosen, Required(d.changesets[id]));
    return Some(chosen[..Required(d.changesets[id])]);
  }

  /** Where two choices agree up to `n`, the next of one is at most the next of the other. */
  lemma NotLater(w: World, d: Db, id: string, a: seq<string>, b: seq<string>, n: nat)
    requires id in d.changesets && Picks(w, d, id, a) && Picks(w, d, id, b) && n < |a| == |b|
    requires forall m | 0 <= m < n :: a[m] == b[m]
    ensures a[n] == b[n] || Earlier(d, a[n], b[n])
  {
    assert Valid(w, d, id, b[n]) && Outranked(d, a, b[n]);
    OutrankedByNext(d, a, b, n);
  }

  lemma OutrankedByNext(d: Db, a: seq<string>, b: seq<string>, n: nat)
    requires n < |a| == |b| && InOrder(d, a) && InOrder(d, b) && Outranked(d, a, b[n])
    requires forall m | 0 <= m < n :: a[m] == b[m]
    ensures a[n] == b[n] || Earlier(d, a[n], b[n])
  {
    var x := b[n];
    if m :| 0 <= m < |a| && ApproverOf(d, a[m]) == ApproverOf(d, x) {
      assert n <= m;
      if n < m && x != a[m] {
        EarlierTransitive(d, a[n], a[m], x);
      }
    } else {
      assert Earlier(d, a[n], x);
    }
  }

  lemma EarlierAsymmetric(d: Db, x: string, y: string)
    requires x == y || Earlier(d, x, y)
    requires y == x || Earlier(d, y, x)
    ensures x == y
  {
    if x != y {
      EarlierTransitive(d, x, y, x);
      StrLessIrreflexive(x);
    }
  }

  lemma NextAgrees(w: World, d: Db, id: string, a: seq<string>, b: seq<string>, n: nat)
    requires id in d.changesets && Picks(w, d, id, a) && Picks(w, d, id, b) && n < |a| == |b|
    requires forall m | 0 <= m < n :: a[m] == b[m]
    ensures a[n] == b[n]
  {
    NotLater(w, d, id, a, b, n);
    NotLater(w, d, id, b, a, n);
    EarlierAsymmetric(d, a[n], b[n]);
  }

  /** The choice is determined by the approvals: there is only one of each length. */
  lemma PicksUnique(w: World, d: Db, id: string, a: seq<string>, b: seq<string>)
    requires id in d.changesets && Picks(w, d, id, a) && Picks(w, d, id, b) && |a| == |b|
    ensures a == b
  {
    for k := 0 to |a|
      invariant forall m | 0 <= m < k :: a[m] == b[m]
    {
      NextAgrees(w, d, id, a, b, k);
    }
  }
}
