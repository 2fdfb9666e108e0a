/** The in-memory claim store against the claim machine of the SQL stores: on which
    operations, and so on which traces, the two cannot be told apart. */
module DedupeRefinement {
  import opened Models
  import M = MemoryStores
  import opened ClaimMachine

  predicate SameEntry(rec: M.ClaimRecord, e: Entry) {
    rec.attempts == e.attempts
    && match e.phase
       case Free => !rec.done && !rec.claimed
       case Held(_) => !rec.done && rec.claimed
       case Finished(expiresAt) => rec.done && rec.expiresAt == expiresAt
  }

  /** The in-memory dictionary holds the machine's keys; it does not know when they were claimed. */
  ghost predicate Related(claims: M.Claims, m: Machine) {
    && (forall key :: key in claims <==> key in m)
    && (forall key | key in claims :: SameEntry(claims[key], m[key]))
  }

  function MemApply(claims: M.Claims, op: Op): M.Claims {
    match op
    case TryClaim(key, _, _) => if M.Claimable(claims, key) then M.Claimed(claims, key) else claims
    case RecordAttempt(key) => M.Attempted(claims, key)
    case MarkDone(key, ttl, now) => M.Finished(claims, key, now + ttl)
    case Release(key) => M.Released(claims, key)
    case PurgeExpired(now) => M.Purged(claims, now)
  }

  function MemReplyTo(claims: M.Claims, op: Op): Reply {
    match op
    case TryClaim(key, _, _) => Won(M.Claimable(claims, key))
    case RecordAttempt(key) => Attempt(M.Attempts(M.Attempted(claims, key), key))
    case MarkDone(_, _, _) => Nothing
    case Release(_) => Nothing
    case PurgeExpired(now) => Purge(|set key | key in claims && M.Expired(claims[key], now)|)
  }

  method Perform(store: M.InMemoryDedupeStore, op: Op) returns (reply: Reply)
    modifies store
    ensures reply == MemReplyTo(old(store.claims), op)
    ensures store.claims == MemApply(old(store.claims), op)
  {
    match op {
      case TryClaim(key, lease, _) =>
        var won := store.TryClaim(key, lease.Floor);
        reply := Won(won);
      case RecordAttempt(key) =>
        var attempts := store.RecordAttempt(key);
        reply := Attempt(attempts);
      case MarkDone(key, ttl, now) =>
        store.MarkDone(key, ttl, now);
        reply := Nothing;
      case Release(key) =>
        store.Release(key);
        reply := Nothing;
      case PurgeExpired(now) =>
        var purged := store.PurgeExpired(now);
        reply := Purge(purged);
    }
  }

  /** The claim would take over a held key whose lease is over. */
  predicate Lapses(m: Machine, op: Op) {
    op.TryClaim? && EntryAt(m, op.key).phase.Held? && op.now - EntryAt(m, op.key).phase.since >= op.lease
  }

  /** The attempt is recorded on a key nobody claimed. */
  predicate Unclaimed(m: Machine, op: Op) {
    op.RecordAttempt? && op.key !in m
  }

  ghost predicate Agree(claims: M.Claims, m: Machine, op: Op) {
    MemReplyTo(claims, op) == ReplyTo(m, op) && Related(MemApply(claims, op), Apply(m, op))
  }

  lemma PurgesAgree(claims: M.Claims, m: Machine, now: Time)
    requires Related(claims, m)
    ensures Agree(claims, m, PurgeExpired(now))
  {
    assert (set key | key in claims && M.Expired(claims[key], now)) == ExpiredKeys(m, now);
  }

  /** The stores answer alike and stay alike on every operation but these two. */
  lemma {:induction false} AgreeExactly(claims: M.Claims, m: Machine, op: Op)
    requires Related(claims, m)
    ensures Agree(claims, m, op) <==> !Lapses(m, op) && !Unclaimed(m, op)
  {
    match op {
      case TryClaim(_, _, _) =>
      case RecordAttempt(key) =>
        if key !in m {
          assert MemApply(claims, op)[key].claimed && Apply(m, op)[key].phase.Free?;
        }
      case MarkDone(_, _, _) =>
      case Release(_) =>
      case PurgeExpired(now) => PurgesAgree(claims, m, now);
    }
  }

  // ---- Traces ----

  function MemFinal(claims: M.Claims, ops: seq<Op>): M.Claims
    decreases |ops|
  {
    if ops == [] then claims else MemFinal(MemApply(claims, ops[0]), ops[1..])
  }

  function MemReplies(claims: M.Claims, ops: seq<Op>): seq<Reply>
    decreases |ops|
  {
    if ops == [] then [] else [MemReplyTo(claims, ops[0])] + MemReplies(MemApply(claims, ops[0]), ops[1..])
  }

  predicate NoneLapses(m: Machine, ops: seq<Op>)
    decreases |ops|
  {
    ops != [] ==> !Lapses(m, ops[0]) && NoneLapses(Apply(m, ops[0]), ops[1..])
  }

  /** The keys that are surely in the table after `op`; a purge may remove any of them. */
  function KnownAfter(known: set<string>, op: Op): set<string> {
    match op
    case TryClaim(key, _, _) => known + {key}
    case MarkDone(key, _, _) => known + {key}
    case PurgeExpired(_) => {}
    case _ => known
  }

  /** Every attempt is recorded on a key that was claimed first. */
  predicate ClaimsFirst(ops: seq<Op>, known: set<string>)
    decreases |ops|
  {
    ops != [] ==> (ops[0].RecordAttempt? ==> ops[0].key in known) && ClaimsFirst(ops[1..], KnownAfter(known, ops[0]))
  }

  /** On a trace that claims first and in which no lease lapses, the in-memory store gives
      the replies of the claim machine, and so of both SQL stores. */
  lemma {:induction false} TracesAgree(claims: M.Claims, m: Machine, ops: seq<Op>, known: set<string>)
    requires Related(claims, m) && known <= m.Keys
    requires ClaimsFirst(ops, known) && NoneLapses(m, ops)
    ensures MemReplies(claims, ops) == Replies(m, ops)
    ensures Related(MemFinal(claims, ops), Final(m, ops))
    decreases |ops|
  {
    if ops != [] {
      AgreeExactly(claims, m, ops[0]);
      TracesAgree(MemApply(claims, ops[0]), Apply(m, ops[0]), ops[1..], KnownAfter(known, ops[0]));
    }
  }
}
