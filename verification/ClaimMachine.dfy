/** The claim store as its callers see it: one phase and a lifetime attempt count for each
    key.  The SQL stores are proved to be this machine; the in-memory store is it exactly as
    long as no lease lapses. */
module ClaimMachine {
  import opened Models

  datatype Phase = Free | Held(since: Time) | Finished(expiresAt: Option<Time>)

  datatype Entry = Entry(phase: Phase, attempts: nat)

  type Machine = map<string, Entry>

  const NEW_ENTRY := Entry(Free, 0)

  function EntryAt(m: Machine, key: string): Entry {
    if key in m then m[key] else NEW_ENTRY
  }

  predicate IsFinished(m: Machine, key: string) {
    EntryAt(m, key).phase.Finished?
  }

  /** A claim is exclusive for its lease; a finished key is never claimed again. */
  predicate Claimable(m: Machine, key: string, lease: Time, now: Time) {
    match EntryAt(m, key).phase
    case Free => true
    case Held(since) => now - since >= lease
    case Finished(_) => false
  }

  function Claimed(m: Machine, key: string, lease: Time, now: Time): Machine {
    if Claimable(m, key, lease, now) then m[key := EntryAt(m, key).(phase := Held(now))] else m
  }

  function Attempted(m: Machine, key: string): Machine {
    m[key := EntryAt(m, key).(attempts := EntryAt(m, key).attempts + 1)]
  }

  function MarkedDone(m: Machine, key: string, expiresAt: Time): Machine {
    m[key := EntryAt(m, key).(phase := Finished(Some(expiresAt)))]
  }

  function Released(m: Machine, key: string): Machine {
    if key in m && !m[key].phase.Finished? then m[key := m[key].(phase := Free)] else m
  }

  predicate Expired(e: Entry, now: Time) {
    e.phase.Finished? && e.phase.expiresAt.Some? && e.phase.expiresAt.value <= now
  }

  function ExpiredKeys(m: Machine, now: Time): set<string> {
    set key | key in m && Expired(m[key], now)
  }

  function Purged(m: Machine, now: Time): Machine {
    m - ExpiredKeys(m, now)
  }

  // ---- Traces of operations ----

  datatype Op =
    | TryClaim(key: string, lease: Time, now: Time)
    | RecordAttempt(key: string)
    | MarkDone(key: string, ttl: Time, now: Time)
    | Release(key: string)
    | PurgeExpired(now: Time)

  datatype Reply = Won(won: bool) | Attempt(count: nat) | Nothing | Purge(count: nat)

  function Apply(m: Machine, op: Op): Machine {
    match op
    case TryClaim(key, lease, now) => Claimed(m, key, lease, now)
    case RecordAttempt(key) => Attempted(m, key)
    case MarkDone(key, ttl, now) => MarkedDone(m, key, now + ttl)
    case Release(key) => Released(m, key)
    case PurgeExpired(now) => Purged(m, now)
  }

  function ReplyTo(m: Machine, op: Op): Reply {
    match op
    case TryClaim(key, lease, now) => Won(Claimable(m, key, lease, now))
    case RecordAttempt(key) => Attempt(EntryAt(m, key).attempts + 1)
    case MarkDone(_, _, _) => Nothing
    case Release(_) => Nothing
    case PurgeExpired(now) => Purge(|ExpiredKeys(m, now)|)
  }

  function Final(m: Machine, ops: seq<Op>): Machine
    decreases |ops|
  {
    if ops == [] then m else Final(Apply(m, ops[0]), ops[1..])
  }

  function Replies(m: Machine, ops: seq<Op>): (replies: seq<Reply>)
    ensures |replies| == |ops|
    decreases |ops|
  {
    if ops == [] then [] else [ReplyTo(m, ops[0])] + Replies(Apply(m, ops[0]), ops[1..])
  }

  /** No claim of `key` is won anywhere in the trace. */
  predicate NeverWon(m: Machine, ops: seq<Op>, key: string)
    decreases |ops|
  {
    ops != [] ==>
      (ops[0].TryClaim? && ops[0].key == key ==> ReplyTo(m, ops[0]) == Won(false))
      && NeverWon(Apply(m, ops[0]), ops[1..], key)
  }

  predicate Purges(op: Op) {
    op.PurgeExpired?
  }

  lemma StepKeepsDone(m: Machine, op: Op, key: string)
    requires !Purges(op)
    ensures EntryAt(m, key).attempts <= EntryAt(Apply(m, op), key).attempts
    ensures IsFinished(m, key) ==> IsFinished(Apply(m, op), key)
  {
  }

  /** Nothing but a purge undoes a done key or an attempt, and a done key is not claimed. */
  lemma {:induction false} DoneAbsorbs(m: Machine, ops: seq<Op>, key: string)
    requires forall op | op in ops :: !Purges(op)
    ensures EntryAt(m, key).attempts <= EntryAt(Final(m, ops), key).attempts
    ensures IsFinished(m, key) ==> IsFinished(Final(m, ops), key) && NeverWon(m, ops, key)
    decreases |ops|
  {
    if ops != [] {
      assert ops[0] in ops && forall op | op in ops[1..] :: op in ops;
      StepKeepsDone(m, ops[0], key);
      DoneAbsorbs(Apply(m, ops[0]), ops[1..], key);
    }
  }

  /** Could this operation free `key`, or claim it under a negative lease? */
  predicate MayFree(op: Op, key: string) {
    Purges(op) || (op.Release? && op.key == key) || (op.TryClaim? && op.key == key && op.lease < 0.0)
  }

  /** Held since `since` or later, or finished. */
  predicate Busy(m: Machine, key: string, since: Time) {
    match EntryAt(m, key).phase
    case Free => false
    case Held(stamp) => since <= stamp
    case Finished(_) => true
  }

  lemma {:induction false} StaysBusy(m: Machine, ops: seq<Op>, key: string, since: Time)
    requires Busy(m, key, since)
    requires forall op | op in ops :: !MayFree(op, key)
    ensures Busy(Final(m, ops), key, since)
    decreases |ops|
  {
    if ops != [] {
      assert ops[0] in ops && forall op | op in ops[1..] :: op in ops;
      assert Busy(Apply(m, ops[0]), key, since);
      StaysBusy(Apply(m, ops[0]), ops[1..], key, since);
    }
  }

  /** Lease exclusion: with no release of the key and no purge in between, two won claims of
      one key are at least the second one's lease apart, whatever the clocks do. */
  lemma {:induction false} WonClaimsAreALeaseApart(
    m: Machine, key: string, lease: Time, now: Time, between: seq<Op>, lease': Time, now': Time)
    requires Claimable(m, key, lease, now)
    requires forall op | op in between :: !MayFree(op, key)
    requires Claimable(Final(Claimed(m, key, lease, now), between), key, lease', now')
    ensures now' - now >= lease'
  {
    StaysBusy(Claimed(m, key, lease, now), between, key, now);
  }

  predicate Untouching(op: Op, key: string) {
    match op
    case RecordAttempt(_) => true
    case PurgeExpired(_) => true
    case TryClaim(other, _, _) => other != key
    case MarkDone(other, _, _) => other != key
    case Release(other) => other != key
  }

  lemma {:induction false} StaysHeld(m: Machine, ops: seq<Op>, key: string)
    requires EntryAt(m, key).phase.Held?
    requires forall op | op in ops :: Untouching(op, key)
    ensures EntryAt(Final(m, ops), key).phase == EntryAt(m, key).phase
    decreases |ops|
  {
    if ops != [] {
      assert ops[0] in ops && forall op | op in ops[1..] :: op in ops;
      assert EntryAt(Apply(m, ops[0]), key).phase == EntryAt(m, key).phase;
      StaysHeld(Apply(m, ops[0]), ops[1..], key);
    }
  }

  /** A crashed worker's key comes back exactly when its lease is over: whatever is done
      meanwhile to other keys, attempts and expired rows. */
  lemma {:induction false} AbandonedClaimComesBack(
    m: Machine, key: string, lease: Time, now: Time, between: seq<Op>, lease': Time, now': Time)
    requires Claimable(m, key, lease, now)
    requires forall op | op in between :: Untouching(op, key)
    ensures Claimable(Final(Claimed(m, key, lease, now), between), key, lease', now') <==> now' - now >= lease'
  {
    StaysHeld(Claimed(m, key, lease, now), between, key);
  }
}
