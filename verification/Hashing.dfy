/**
  The dictionaries behind ticket signatures and hashes (tickets.py:18-40; main.py:3969-3985), and why hashing
  them with `sha256_hex` tells the tickets of jobs apart.
 */
module Hashing {
  import opened Ordering
  import opened Json
  import opened Tables
  import JsonText
  import PlanHash

  function PreconditionsDocument(p: Preconditions): Json {
    match p
    case ForOperation(jobId, planId, executor, typedHash, generation) =>
      Obj([Field("operation_job_id", Str(jobId)), Field("operation_plan_id", Str(planId)), Field("executor", Str(executor)),
           Field("typed_plan_hash", typedHash), Field("policy_generation", Num(generation))])
    case ForProvider(jobId, typedHash, generation, manifestHash) =>
      Obj([Field("provider_job_id", Str(jobId)), Field("executor", Str("cluster-provider-worker")),
           Field("typed_plan_hash", typedHash), Field("policy_generation", Num(generation)),
           Field("artifact_manifest_hash", Str(manifestHash))])
    case ForPreview(details) => details
  }

  /** The dictionary that `issue_ticket` signs and that is hashed. */
  function TicketDocument(t: Ticket): Json {
    Obj([Field("changeset_id", Str(t.changesetId)), Field("plan_hash", Str(t.planHash)), Field("plan", t.plan),
         Field("preconditions", PreconditionsDocument(t.preconditions)), Field("issued_at", Num(t.issuedAt)),
         Field("expires_at", Num(t.expiresAt))])
  }

  /** Five keys of which no two have the same length and first letter. */
  lemma FiveKeys(keys: seq<string>)
    requires |keys| == 5 && forall i | 0 <= i < 5 :: keys[i] != []
    requires forall i, j | 0 <= i < j < 5 :: |keys[i]| != |keys[j]| || keys[i][0] != keys[j][0]
    ensures Distinct(keys)
  {
  }

  lemma PreconditionKeys(p: Preconditions)
    requires p.ForOperation?
    ensures Distinct(Keys(PreconditionsDocument(p).fields))
  {
    FiveKeys(Keys(PreconditionsDocument(p).fields));
  }

  lemma PreconditionFields(p: Preconditions, q: Preconditions, a: seq<Field>, b: seq<Field>)
    requires p.ForOperation? && q.ForOperation? && PreconditionsDocument(p) == Obj(a) && PreconditionsDocument(q) == Obj(b)
    ensures |a| == |b| && forall i | 0 <= i < |a| :: a[i].key == b[i].key
    ensures (forall i | 0 <= i < |a| :: Equivalent(a[i].value, b[i].value)) <==> SamePreconditions(p, q)
  {
    assert Equivalent(a[0].value, b[0].value) <==> p.jobId == q.jobId;
    assert Equivalent(a[1].value, b[1].value) <==> p.planId == q.planId;
    assert Equivalent(a[2].value, b[2].value) <==> p.executor == q.executor;
    assert a[3].value == p.typedHash && b[3].value == q.typedHash;
    assert Equivalent(a[4].value, b[4].value) <==> p.generation == q.generation;
  }

  lemma PreconditionsCompare(p: Preconditions, q: Preconditions, x: Json, y: Json)
    requires p.ForOperation? && q.ForOperation? && x == PreconditionsDocument(p) && y == PreconditionsDocument(q) && Distinct(Keys(x.fields))
    ensures Equivalent(x, y) <==> SamePreconditions(p, q)
  {
    PreconditionFields(p, q, x.fields, y.fields);
    EquivalentInPlace(x.fields, y.fields);
  }

  lemma TicketKeys(t: Ticket)
    ensures Distinct(Keys(TicketDocument(t).fields))
  {
    var keys := Keys(TicketDocument(t).fields);
    assert |keys[0]| == 12 && |keys[1]| == 9 && |keys[2]| == 4 && |keys[3]| == 13 && |keys[4]| == 9 && |keys[5]| == 10;
    assert keys[1][0] == 'p' && keys[4][0] == 'i';
  }

  /** Comparing two ticket dictionaries place by place. */
  lemma TicketFields(s: Ticket, t: Ticket, a: seq<Field>, b: seq<Field>)
    requires TicketDocument(s) == Obj(a) && TicketDocument(t) == Obj(b)
    requires Equivalent(PreconditionsDocument(s.preconditions), PreconditionsDocument(t.preconditions)) <==>
             SamePreconditions(s.preconditions, t.preconditions)
    ensures |a| == |b| && forall i | 0 <= i < |a| :: a[i].key == b[i].key
    ensures (forall i | 0 <= i < |a| :: Equivalent(a[i].value, b[i].value)) <==> SameTicket(s, t)
  {
    assert Equivalent(a[0].value, b[0].value) <==> s.changesetId == t.changesetId;
    assert Equivalent(a[1].value, b[1].value) <==> s.planHash == t.planHash;
    assert Equivalent(a[4].value, b[4].value) <==> s.issuedAt == t.issuedAt;
    assert Equivalent(a[5].value, b[5].value) <==> s.expiresAt == t.expiresAt;
    assert a[2].value == s.plan && b[2].value == t.plan;
    assert a[3].value == PreconditionsDocument(s.preconditions) && b[3].value == PreconditionsDocument(t.preconditions);
  }

  lemma TicketsCompare(s: Ticket, t: Ticket, x: Json, y: Json)
    requires x == TicketDocument(s) && y == TicketDocument(t) && Distinct(Keys(x.fields))
    requires Equivalent(PreconditionsDocument(s.preconditions), PreconditionsDocument(t.preconditions)) <==>
             SamePreconditions(s.preconditions, t.preconditions)
    ensures Equivalent(x, y) <==> SameTicket(s, t)
  {
    TicketFields(s, t, x.fields, y.fields);
    EquivalentInPlace(x.fields, y.fields);
  }

  /** `sha256_hex`, which sorts keys before it hashes, is collision free in this sense if SHA-256 is. */
  lemma Sha256IsCollisionFree(w: World, sha: string -> string)
    requires PlanHash.CollisionFree(sha) && forall j :: w.hash(j) == PlanHash.Sha256Hex(sha, j)
    requires forall t :: w.ticketHash(t) == PlanHash.Sha256Hex(sha, TicketDocument(t))
    ensures CollisionFree(w)
  {
    forall a, b
      ensures w.hash(a) == w.hash(b) <==> Equivalent(a, b)
    {
      JsonText.CanonicalIffEquivalent(a, b);
    }
    forall s: Ticket, t: Ticket | s.preconditions.ForOperation? && t.preconditions.ForOperation?
      ensures w.ticketHash(s) == w.ticketHash(t) <==> SameTicket(s, t)
    {
      TicketHashBinds(sha, s, t);
    }
  }

  lemma TicketHashBinds(sha: string -> string, s: Ticket, t: Ticket)
    requires PlanHash.CollisionFree(sha) && s.preconditions.ForOperation? && t.preconditions.ForOperation?
    ensures PlanHash.Sha256Hex(sha, TicketDocument(s)) == PlanHash.Sha256Hex(sha, TicketDocument(t)) <==> SameTicket(s, t)
  {
    PreconditionKeys(s.preconditions);
    PreconditionsCompare(s.preconditions, t.preconditions, PreconditionsDocument(s.preconditions), PreconditionsDocument(t.preconditions));
    TicketKeys(s);
    TicketsCompare(s, t, TicketDocument(s), TicketDocument(t));
    JsonText.CanonicalIffEquivalent(TicketDocument(s), TicketDocument(t));
  }
}
