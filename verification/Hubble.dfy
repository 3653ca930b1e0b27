/**
  The flow history of each cluster: batches are filtered and inserted once per fingerprint, then only the newest
  2000 rows of the cluster are kept (main.py:3379-3413; db.py:398-409).
 */
module Hubble {
  import opened Ordering

  /** Ids are handed out in increasing order and never reused. */
  datatype Row = Row(id: nat, clusterId: string, observedAt: int, fingerprint: string, body: string)

  /** A flow event; `wellFormed` says that its keys and its fingerprint have the accepted shape. */
  datatype Event = Event(wellFormed: bool, fingerprint: string, body: string)

  const BATCH_EVENTS := 200
  const KEPT_ROWS := 2000

  // ---- The newest rows ----------------------------------------------------------------------------

  /** `ORDER BY observed_at DESC, id DESC`. */
  predicate Newer(x: Row, y: Row) {
    x.observedAt > y.observedAt || (x.observedAt == y.observedAt && x.id > y.id)
  }

  function Above(s: set<Row>, x: Row): set<Row> {
    set y | y in s && Newer(y, x)
  }

  /** The `n` newest rows. */
  function Top(s: set<Row>, n: nat): set<Row> {
    set x | x in s && |Above(s, x)| < n
  }

  function Of(s: set<Row>, clusterId: string): set<Row> {
    set x | x in s && x.clusterId == clusterId
  }

  /** `DELETE ... WHERE cluster_id=? AND id NOT IN (SELECT ... LIMIT 2000)`. */
  function Trimmed(s: set<Row>, clusterId: string): set<Row> {
    (s - Of(s, clusterId)) + Top(Of(s, clusterId), KEPT_ROWS)
  }

  ghost predicate UniqueIds(s: set<Row>) {
    forall x, y | x in s && y in s && x.id == y.id :: x == y
  }

  lemma OldestExists(s: set<Row>) returns (oldest: Row)
    requires s != {} && UniqueIds(s)
    ensures oldest in s && forall x | x in s && x != oldest :: Newer(x, oldest)
    decreases s
  {
    var x :| x in s;
    if s == {x} {
      oldest := x;
    } else {
      var other := OldestExists(s - {x});
      oldest := if Newer(other, x) then x else other;
      forall y | y in s && y != oldest
        ensures Newer(y, oldest)
      {
        assert y == x || y == other || Newer(y, other);
      }
    }
  }

  lemma TopIsSmall(s: set<Row>, n: nat)
    requires UniqueIds(s)
    ensures |Top(s, n)| <= n
  {
    var top := Top(s, n);
    if top != {} {
      var oldest := OldestExists(top);
      SubsetCardinality(top - {oldest}, Above(s, oldest));
    }
  }

  /** What is below everything does not count. */
  lemma TopWithout(s: set<Row>, oldest: Row, n: nat)
    requires UniqueIds(s) && oldest in s && forall x | x in s && x != oldest :: Newer(x, oldest)
    ensures Top(s - {oldest}, n) <= Top(s, n)
  {
    forall x | x in s - {oldest}
      ensures Above(s - {oldest}, x) == Above(s, x)
    {
    }
  }

  lemma {:induction false} TopIsFull(s: set<Row>, n: nat)
    requires UniqueIds(s) && |s| >= n
    ensures |Top(s, n)| >= n
    decreases s
  {
    if n > 0 {
      var oldest := OldestExists(s);
      if |s| == n {
        forall x | x in s
          ensures x in Top(s, n)
        {
          SubsetCardinality(Above(s, x), s - {x});
        }
        assert Top(s, n) == s;
      } else {
        TopIsFull(s - {oldest}, n);
        TopWithout(s, oldest, n);
        SubsetCardinality(Top(s - {oldest}, n), Top(s, n));
      }
    }
  }

  /** A row outside the top has a full top above it. */
  lemma FullAbove(s: set<Row>, y: Row, n: nat)
    requires UniqueIds(s) && y in s && y !in Top(s, n)
    ensures |Above(Top(s, n), y)| >= n
  {
    var above := Above(s, y);
    TopIsFull(above, n);
    forall x | x in Top(above, n)
      ensures x in Above(Top(s, n), y)
    {
      assert Above(s, x) == Above(above, x);
    }
    SubsetCardinality(Top(above, n), Above(Top(s, n), y));
  }

  /** Trimming now and trimming later: dropping old rows early never changes what is kept. */
  lemma TopOfTop(a: set<Row>, b: set<Row>, n: nat)
    requires UniqueIds(a + b)
    ensures Top(Top(a, n) + b, n) == Top(a + b, n)
  {
    var all, kept := a + b, Top(a, n) + b;
    forall x | x in Top(all, n)
      ensures x in Top(kept, n)
    {
      SubsetCardinality(Above(a, x), Above(all, x));
      SubsetCardinality(Above(kept, x), Above(all, x));
    }
    forall x | x in Top(kept, n)
      ensures x in Top(all, n)
    {
      if y :| y in Above(all, x) && y !in Above(kept, x) {
        FullAbove(a, y, n);
        SubsetCardinality(Above(Top(a, n), y), Above(kept, x));
        assert false;
      }
      assert Above(all, x) == Above(kept, x);
    }
  }

  // ---- Inserting a batch ----------------------------------------------------------------------------

  /** `UNIQUE(cluster_id, fingerprint)` already holds a row. */
  predicate Seen(s: set<Row>, clusterId: string, fingerprint: string) {
    exists x :: x in s && x.clusterId == clusterId && x.fingerprint == fingerprint
  }

  /** The table, the next id, and the rows a batch has inserted so far. */
  datatype Fill = Fill(rows: set<Row>, next: nat, inserted: seq<Row>)

  /** One event: nothing if it is refused or its fingerprint is there (`INSERT OR IGNORE`). */
  function WithEvent(f: Fill, clusterId: string, observedAt: int, e: Event): Fill {
    if e.wellFormed && !Seen(f.rows, clusterId, e.fingerprint) then
      var row := Row(f.next, clusterId, observedAt, e.fingerprint, e.body);
      Fill(f.rows + {row}, f.next + 1, f.inserted + [row])
    else f
  }

  function WithEvents(f: Fill, clusterId: string, observedAt: int, events: seq<Event>, k: nat): Fill
    requires k <= |events|
  {
    if k == 0 then f else WithEvent(WithEvents(f, clusterId, observedAt, events, k - 1), clusterId, observedAt, events[k - 1])
  }

  function Batch(events: seq<Event>): (k: nat)
    ensures k <= |events| && k <= BATCH_EVENTS
  {
    if |events| < BATCH_EVENTS then |events| else BATCH_EVENTS
  }

  /** The table with the batch's first 200 events inserted. */
  function Filled(s: set<Row>, next: nat, clusterId: string, observedAt: int, events: seq<Event>): Fill {
    WithEvents(Fill(s, next, []), clusterId, observedAt, events, Batch(events))
  }

  /** The row holds the event as it was received. */
  predicate RowOf(r: Row, clusterId: string, observedAt: int, e: Event) {
    e.wellFormed && r.clusterId == clusterId && r.observedAt == observedAt && r.fingerprint == e.fingerprint && r.body == e.body
  }

  ghost predicate FromEvents(r: Row, clusterId: string, observedAt: int, events: seq<Event>) {
    exists e :: e in events && RowOf(r, clusterId, observedAt, e)
  }

  predicate Has(inserted: seq<Row>, fingerprint: string) {
    exists r :: r in inserted && r.fingerprint == fingerprint
  }

  /** What these events insert into the table `s`: rows of theirs, and one for every accepted fingerprint that was not there. */
  ghost predicate Inserts(s: set<Row>, clusterId: string, observedAt: int, events: seq<Event>, inserted: seq<Row>) {
    && (forall r | r in inserted :: FromEvents(r, clusterId, observedAt, events) && !Seen(s, clusterId, r.fingerprint))
    && (forall e | e in events && e.wellFormed :: Seen(s, clusterId, e.fingerprint) || Has(inserted, e.fingerprint))
  }

  lemma InsertsMore(s: set<Row>, clusterId: string, observedAt: int, events: seq<Event>, e: Event, inserted: seq<Row>, more: seq<Row>)
    requires Inserts(s, clusterId, observedAt, events, inserted)
    requires if more == inserted then e.wellFormed ==> Seen(s, clusterId, e.fingerprint) || Has(inserted, e.fingerprint)
             else |more| == |inserted| + 1 && more[..|inserted|] == inserted && RowOf(more[|inserted|], clusterId, observedAt, e)
                  && !Seen(s, clusterId, e.fingerprint)
    ensures Inserts(s, clusterId, observedAt, events + [e], more)
  {
    forall r | r in more
      ensures FromEvents(r, clusterId, observedAt, events + [e]) && !Seen(s, clusterId, r.fingerprint)
    {
      if r in inserted {
        var x :| x in events && RowOf(r, clusterId, observedAt, x);
        assert x in events + [e];
      } else {
        assert r == more[|inserted|] && e in events + [e];
      }
    }
    forall x | x in events + [e] && x.wellFormed
      ensures Seen(s, clusterId, x.fingerprint) || Has(more, x.fingerprint)
    {
      if x in events && !Seen(s, clusterId, x.fingerprint) {
        var r :| r in inserted && r.fingerprint == x.fingerprint;
        assert r in more;
      } else if more != inserted && x == e {
        assert more[|inserted|] in more;
      }
    }
  }

  /** The rows a batch has inserted so far are those of its events so far. */
  lemma {:induction false} EventsInsert(s: set<Row>, next: nat, clusterId: string, observedAt: int, events: seq<Event>, k: nat)
    requires k <= |events|
    ensures var f := WithEvents(Fill(s, next, []), clusterId, observedAt, events, k);
            Inserts(s, clusterId, observedAt, events[..k], f.inserted) && f.rows == s + Elems(f.inserted)
  {
    if k > 0 {
      EventsInsert(s, next, clusterId, observedAt, events, k - 1);
      var f, e := WithEvents(Fill(s, next, []), clusterId, observedAt, events, k - 1), events[k - 1];
      EventInserts(s, clusterId, observedAt, events[..k - 1], e, f);
      assert events[..k] == events[..k - 1] + [e];
    }
  }

  lemma SeenStays(s: set<Row>, t: set<Row>, clusterId: string, fingerprint: string)
    requires s <= t && Seen(s, clusterId, fingerprint)
    ensures Seen(t, clusterId, fingerprint)
  {
    var x :| x in s && x.clusterId == clusterId && x.fingerprint == fingerprint;
    assert x in t;
  }

  lemma EventInserts(s: set<Row>, clusterId: string, observedAt: int, events: seq<Event>, e: Event, f: Fill)
    requires Inserts(s, clusterId, observedAt, events, f.inserted) && f.rows == s + Elems(f.inserted)
    ensures var g := WithEvent(f, clusterId, observedAt, e);
            Inserts(s, clusterId, observedAt, events + [e], g.inserted) && g.rows == s + Elems(g.inserted)
  {
    var g := WithEvent(f, clusterId, observedAt, e);
    if e.wellFormed && !Seen(f.rows, clusterId, e.fingerprint) {
      assert g.inserted[|f.inserted|] == Row(f.next, clusterId, observedAt, e.fingerprint, e.body);
      if Seen(s, clusterId, e.fingerprint) {
        SeenStays(s, f.rows, clusterId, e.fingerprint);
      }
    } else if e.wellFormed {
      var x :| x in f.rows && x.clusterId == clusterId && x.fingerprint == e.fingerprint;
      assert x in s || x in f.inserted;
    }
    InsertsMore(s, clusterId, observedAt, events, e, f.inserted, g.inserted);
  }

  /** The flow table. */
  class History {
    var rows: set<Row>
    var next: nat

    constructor ()
      ensures rows == {} && next == 0
    {
      rows, next := {}, 0;
    }

    /** `_persist_hubble_batch`: the rows inserted, in order. */
    method PersistBatch(clusterId: string, observedAt: int, events: seq<Event>) returns (inserted: seq<Row>)
      modifies this
      ensures var f := Filled(old(rows), old(next), clusterId, observedAt, events);
              rows == Trimmed(f.rows, clusterId) && next == f.next && inserted == f.inserted
      ensures Inserts(old(rows), clusterId, observedAt, if |events| < 200 then events else events[..200], inserted)
    {
      EventsInsert(rows, next, clusterId, observedAt, events, Batch(events));
      inserted := [];
      for k := 0 to Batch(events)
        invariant Fill(rows, next, inserted) == WithEvents(Fill(old(rows), old(next), []), clusterId, observedAt, events, k)
      {
        var e := events[k];
        if e.wellFormed && !Seen(rows, clusterId, e.fingerprint) {
          var row := Row(next, clusterId, observedAt, e.fingerprint, e.body);
          rows, next, inserted := rows + {row}, next + 1, inserted + [row];
        }
      }
      rows := Trimmed(rows, clusterId);
    }
  }

  // ---- Every batch ------------------------------------------------------------------------------------

  ghost predicate UniqueFingerprints(s: set<Row>) {
    forall x, y | x in s && y in s && x.clusterId == y.clusterId && x.fingerprint == y.fingerprint :: x == y
  }

  /** Ids below the next one, each once; one row per cluster and fingerprint. */
  ghost predicate LogSound(log: set<Row>, next: nat) {
    UniqueIds(log) && UniqueFingerprints(log) && forall x | x in log :: x.id < next
  }

  /** A sound log with no cluster over its limit. */
  ghost predicate Sound(s: set<Row>, next: nat) {
    LogSound(s, next) && forall c :: |Of(s, c)| <= KEPT_ROWS
  }

  lemma EventKeepsSound(f: Fill, clusterId: string, observedAt: int, e: Event)
    requires LogSound(f.rows, f.next)
    ensures LogSound(WithEvent(f, clusterId, observedAt, e).rows, WithEvent(f, clusterId, observedAt, e).next)
    ensures forall c | c != clusterId :: Of(WithEvent(f, clusterId, observedAt, e).rows, c) == Of(f.rows, c)
  {
  }

  lemma {:induction false} EventsKeepSound(f: Fill, clusterId: string, observedAt: int, events: seq<Event>, k: nat)
    requires k <= |events| && LogSound(f.rows, f.next)
    ensures var g := WithEvents(f, clusterId, observedAt, events, k);
            LogSound(g.rows, g.next) && forall c | c != clusterId :: Of(g.rows, c) == Of(f.rows, c)
  {
    if k > 0 {
      EventsKeepSound(f, clusterId, observedAt, events, k - 1);
      EventKeepsSound(WithEvents(f, clusterId, observedAt, events, k - 1), clusterId, observedAt, events[k - 1]);
    }
  }

  lemma OfTrimmed(s: set<Row>, clusterId: string, other: string)
    ensures Of(Trimmed(s, clusterId), other) == if other == clusterId then Top(Of(s, other), KEPT_ROWS) else Of(s, other)
  {
  }

  /** After any batch every cluster has at most 2000 rows, with different fingerprints; other clusters keep theirs. */
  lemma BatchKeepsSound(s: set<Row>, next: nat, clusterId: string, observedAt: int, events: seq<Event>)
    requires Sound(s, next)
    ensures var f := Filled(s, next, clusterId, observedAt, events);
            && Sound(Trimmed(f.rows, clusterId), f.next)
            && forall c | c != clusterId :: Of(Trimmed(f.rows, clusterId), c) == Of(s, c)
  {
    var f := Filled(s, next, clusterId, observedAt, events);
    EventsKeepSound(Fill(s, next, []), clusterId, observedAt, events, Batch(events));
    forall c
      ensures |Of(Trimmed(f.rows, clusterId), c)| <= KEPT_ROWS
      ensures c != clusterId ==> Of(Trimmed(f.rows, clusterId), c) == Of(s, c)
    {
      OfTrimmed(f.rows, clusterId, c);
      if c == clusterId {
        TopIsSmall(Of(f.rows, c), KEPT_ROWS);
      }
    }
  }

  // ---- The untruncated log ------------------------------------------------------------------------------

  /** No fingerprint of the events that are read is one that the table has dropped. */
  ghost predicate NoneEvicted(s: set<Row>, log: set<Row>, clusterId: string, events: seq<Event>) {
    forall e | e in events[..Batch(events)] && e.wellFormed && Seen(log, clusterId, e.fingerprint) :: Seen(s, clusterId, e.fingerprint)
  }

  /** Table and log have grown by the same rows. */
  ghost predicate Alike(s: set<Row>, log: set<Row>, added: set<Row>, clusterId: string, f: Fill, g: Fill) {
    && f.next == g.next && f.inserted == g.inserted && f.rows == s + added && g.rows == log + added
    && forall x | x in added :: x.clusterId == clusterId
  }

  lemma SeenAlike(s: set<Row>, log: set<Row>, added: set<Row>, clusterId: string, events: seq<Event>, e: Event)
    requires Of(s, clusterId) <= log && NoneEvicted(s, log, clusterId, events) && e in events[..Batch(events)] && e.wellFormed
    ensures Seen(s + added, clusterId, e.fingerprint) <==> Seen(log + added, clusterId, e.fingerprint)
  {
    if x :| x in s && x.clusterId == clusterId && x.fingerprint == e.fingerprint {
      assert x in Of(s, clusterId);
      assert x in log + added;
    }
    if x :| x in log && x.clusterId == clusterId && x.fingerprint == e.fingerprint {
      assert Seen(log, clusterId, e.fingerprint);
      var y :| y in s && y.clusterId == clusterId && y.fingerprint == e.fingerprint;
      assert y in s + added;
    }
  }

  lemma EventAlike(s: set<Row>, log: set<Row>, before: set<Row>, clusterId: string, observedAt: int, events: seq<Event>, e: Event, f: Fill, g: Fill)
      returns (added: set<Row>)
    requires Of(s, clusterId) <= log && NoneEvicted(s, log, clusterId, events) && e in events[..Batch(events)]
    requires Alike(s, log, before, clusterId, f, g)
    ensures Alike(s, log, added, clusterId, WithEvent(f, clusterId, observedAt, e), WithEvent(g, clusterId, observedAt, e))
  {
    added := before;
    if e.wellFormed {
      SeenAlike(s, log, before, clusterId, events, e);
      if !Seen(f.rows, clusterId, e.fingerprint) {
        added := before + {Row(f.next, clusterId, observedAt, e.fingerprint, e.body)};
      }
    }
  }

  lemma {:induction false} EventsAlike(s: set<Row>, log: set<Row>, next: nat, clusterId: string, observedAt: int, events: seq<Event>, k: nat)
      returns (added: set<Row>)
    requires k <= Batch(events) && Of(s, clusterId) <= log && NoneEvicted(s, log, clusterId, events)
    ensures Alike(s, log, added, clusterId, WithEvents(Fill(s, next, []), clusterId, observedAt, events, k),
                  WithEvents(Fill(log, next, []), clusterId, observedAt, events, k))
  {
    if k == 0 {
      added := {};
    } else {
      var before := EventsAlike(s, log, next, clusterId, observedAt, events, k - 1);
      assert events[..Batch(events)][k - 1] == events[k - 1];
      added := EventAlike(s, log, before, clusterId, observedAt, events, events[k - 1],
                          WithEvents(Fill(s, next, []), clusterId, observedAt, events, k - 1),
                          WithEvents(Fill(log, next, []), clusterId, observedAt, events, k - 1));
    }
  }

  /** The table holds the newest 2000 rows of every cluster's log. */
  ghost predicate HoldsNewest(s: set<Row>, log: set<Row>) {
    forall c :: Of(s, c) == Top(Of(log, c), KEPT_ROWS)
  }

  lemma ClusterHoldsNewest(s: set<Row>, log: set<Row>, added: set<Row>, clusterId: string, c: string)
    requires UniqueIds(log + added) && HoldsNewest(s, log) && forall x | x in added :: x.clusterId == clusterId
    ensures (if c == clusterId then Top(Of(s + added, c), KEPT_ROWS) else Of(s + added, c)) == Top(Of(log + added, c), KEPT_ROWS)
  {
    assert Of(s, c) == Top(Of(log, c), KEPT_ROWS);
    if c == clusterId {
      assert Of(log + added, c) == Of(log, c) + added && Of(s + added, c) == Of(s, c) + added;
      TopOfTop(Of(log, c), added, KEPT_ROWS);
    } else {
      assert Of(log + added, c) == Of(log, c) && Of(s + added, c) == Of(s, c);
    }
  }

  /** A batch without dropped fingerprints inserts the same rows into table and log, and keeps the table at the log's newest rows. */
  lemma BatchHoldsNewest(s: set<Row>, log: set<Row>, next: nat, clusterId: string, observedAt: int, events: seq<Event>)
    requires LogSound(log, next) && HoldsNewest(s, log) && NoneEvicted(s, log, clusterId, events)
    ensures var f, g := Filled(s, next, clusterId, observedAt, events), Filled(log, next, clusterId, observedAt, events);
            f.inserted == g.inserted && f.next == g.next && HoldsNewest(Trimmed(f.rows, clusterId), g.rows) && LogSound(g.rows, g.next)
  {
    assert Of(s, clusterId) == Top(Of(log, clusterId), KEPT_ROWS);
    var added := EventsAlike(s, log, next, clusterId, observedAt, events, Batch(events));
    EventsKeepSound(Fill(log, next, []), clusterId, observedAt, events, Batch(events));
    forall c
      ensures Of(Trimmed(s + added, clusterId), c) == Top(Of(log + added, c), KEPT_ROWS)
    {
      OfTrimmed(s + added, clusterId, c);
      ClusterHoldsNewest(s, log, added, clusterId, c);
    }
  }

  /** Of a cluster's rows the table then holds 2000, or all there are, and every one of them is newer than every one it does not hold. */
  lemma KeptAreNewest(s: set<Row>, log: set<Row>, clusterId: string, x: Row, y: Row)
    requires HoldsNewest(s, log) && UniqueIds(log)
    requires x in log && x !in s && y in s && x.clusterId == clusterId && y.clusterId == clusterId
    ensures y in log && |Of(s, clusterId)| == 2000
    ensures y.observedAt > x.observedAt || (y.observedAt == x.observedAt && y.id > x.id)
  {
    var own := Of(log, clusterId);
    assert Of(s, clusterId) == Top(own, KEPT_ROWS);
    assert x in own && x !in Top(own, KEPT_ROWS) && y in Of(s, clusterId);
    SubsetCardinality(Above(own, x), own);
    TopIsSmall(own, KEPT_ROWS);
    TopIsFull(own, KEPT_ROWS);
    if Newer(x, y) {
      SubsetCardinality(Above(own, x), Above(own, y));
    }
  }

  /** One batch of a run: which cluster, when, what. */
  datatype Delivery = Delivery(clusterId: string, observedAt: int, events: seq<Event>)

  /** The table and, beside it, the log that drops nothing. */
  datatype Store = Store(table: set<Row>, log: set<Row>, next: nat)

  ghost predicate IsRun(stores: seq<Store>, batches: seq<Delivery>) {
    && |stores| == |batches| + 1 && stores[0] == Store({}, {}, 0)
    && forall k {:trigger StepAt(stores, batches, k)} | 0 <= k < |batches| :: StepAt(stores, batches, k)
  }

  ghost predicate StepAt(stores: seq<Store>, batches: seq<Delivery>, k: nat)
    requires |stores| == |batches| + 1 && k < |batches|
  {
    var a, b, d := stores[k], stores[k + 1], batches[k];
    var f := Filled(a.table, a.next, d.clusterId, d.observedAt, d.events);
    && b.table == Trimmed(f.rows, d.clusterId) && b.next == f.next
    && b.log == Filled(a.log, a.next, d.clusterId, d.observedAt, d.events).rows
    && NoneEvicted(a.table, a.log, d.clusterId, d.events)
  }

  /**
    In every run in which no dropped fingerprint comes back, the rows stored for a cluster are the newest 2000, by
    time and then id, of all the rows it ever inserted.
   */
  lemma {:induction false} HistoryIsNewestOfLog(stores: seq<Store>, batches: seq<Delivery>, k: nat)
    requires IsRun(stores, batches) && k < |stores|
    ensures HoldsNewest(stores[k].table, stores[k].log) && LogSound(stores[k].log, stores[k].next)
  {
    if k > 0 {
      HistoryIsNewestOfLog(stores, batches, k - 1);
      assert StepAt(stores, batches, k - 1);
      var a, d := stores[k - 1], batches[k - 1];
      BatchHoldsNewest(a.table, a.log, a.next, d.clusterId, d.observedAt, d.events);
    }
  }
}
