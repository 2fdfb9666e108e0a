/** The pipeline over a claim store that keeps leases: when the store is asked, a claim whose
    lease is over no longer stands in the way. */
module Leases {
  import opened Models
  import opened Observability
  import opened MemoryStores
  import opened Delivery
  import opened Visits
  import opened Runs
  import opened LowWater
  import CM = ClaimMachine
  import Schedules

  /** What the claim store's clock shows when the n-th visit asks for its claim. */
  type Clock = (nat, RawMessage) -> Time

  function Lease(cfg: Config): Time {
    cfg.claimLeaseSeconds as real
  }

  function StampIn(stamps: map<string, Time>, key: string): Time {
    if key in stamps then stamps[key] else 0.0
  }

  function StampOf(s: State, key: string): Time {
    StampIn(s.stamps, key)
  }

  predicate LeaseOver(cfg: Config, s: State, key: string, now: Time) {
    now - StampOf(s, key) >= Lease(cfg)
  }

  predicate InLease(cfg: Config, s: State, key: string, now: Time) {
    Held(s.claims, key) && !LeaseOver(cfg, s, key, now)
  }

  predicate Lapsed(cfg: Config, s: State, key: string, now: Time) {
    Held(s.claims, key) && LeaseOver(cfg, s, key, now)
  }

  /** The state as the claim store answers for this key: a lapsed claim is free. */
  function Yielding(cfg: Config, s: State, key: string, now: Time): State {
    if Lapsed(cfg, s, key, now) then s.(claims := Released(s.claims, key)) else s
  }

  function LeasedProcess(cfg: Config, world: World, clock: Clock, s: State, msg: RawMessage): (State, Step) {
    var key, now := KeyOf(cfg, msg), clock(s.visits, msg);
    var (t, step) := Process(cfg, world, Yielding(cfg, s, key, now), msg);
    (if step == Terminal(Duplicate) then t else t.(stamps := s.stamps[key := now]), step)
  }

  function LeasedHandling(cfg: Config, world: World, clock: Clock): Handler {
    (s: State, msg: RawMessage) => LeasedProcess(cfg, world, clock, s, msg)
  }

  function LeasedRunOnce(cfg: Config, world: World, clock: Clock, feed: Feed, s: State): Run {
    RunFeed(cfg, LeasedHandling(cfg, world, clock), feed, s)
  }

  // ---- What a visit does besides its claim does not depend on the claims ----

  function Rehung(s: State, claims: Claims, stamps: map<string, Time>): State {
    s.(claims := claims, stamps := stamps)
  }

  lemma WorkRehung(cfg: Config, work: Work, now: Time, s: State, msg: RawMessage, claims: Claims,
                   stamps: map<string, Time>)
    ensures var (t, end) := DoWork(cfg, work, now, s, msg);
            DoWork(cfg, work, now, Rehung(s, claims, stamps), msg)
                == (Rehung(t, if end.Completed? then Finished(claims, KeyOf(cfg, msg), now + cfg.doneTtlSeconds)
                           else claims, stamps), end)
  {
  }

  lemma DeadLetterRehung(cfg: Config, v: Visit, s: State, msg: RawMessage, reason: Reason, attempts: nat,
                         claims: Claims, stamps: map<string, Time>)
    ensures var (t, step) := DeadLettering(cfg, v, s, msg, reason, attempts);
            DeadLettering(cfg, v, Rehung(s, claims, stamps), msg, reason, attempts)
                == (Rehung(t, Schedules.ClaimsAfter(cfg, v, claims, KeyOf(cfg, msg), step), stamps), step)
  {
  }

  lemma RefreshRehung(cfg: Config, v: Visit, s: State, msg: RawMessage, claims: Claims, stamps: map<string, Time>)
    ensures var (t, step) := RefreshAndRetryOnce(cfg, v, s, msg);
            RefreshAndRetryOnce(cfg, v, Rehung(s, claims, stamps), msg)
                == (Rehung(t, Schedules.ClaimsAfter(cfg, v, claims, KeyOf(cfg, msg), step), stamps), step)
  {
    if !(cfg.refreshes && v.refresh.Raise?) {
      WorkRehung(cfg, v.second, v.now, s, msg, claims, stamps);
      var (worked, end) := DoWork(cfg, v.second, v.now, s, msg);
      if end.Failing? {
        DeadLetterRehung(cfg, v, worked, msg, AuthRetryFailed(Auth, end.failure), 1, claims, stamps);
      }
    }
  }

  lemma RetryRehung(cfg: Config, v: Visit, s: State, msg: RawMessage, attempts: nat, claims: Claims,
                    stamps: map<string, Time>)
    ensures var (t, step) := RetryOrDeadLetter(cfg, v, s, msg, attempts);
            RetryOrDeadLetter(cfg, v, Rehung(s, claims, stamps), msg, attempts)
                == (Rehung(t, Schedules.ClaimsAfter(cfg, v, claims, KeyOf(cfg, msg), step), stamps), step)
  {
    if cfg.maxAttempts <= attempts {
      DeadLetterRehung(cfg, v, s, msg, Failed(Transient), attempts, claims, stamps);
    }
  }

  lemma FirstWorkRehung(cfg: Config, v: Visit, s: State, msg: RawMessage, claims: Claims, stamps: map<string, Time>)
    requires Attempts(claims, KeyOf(cfg, msg)) == Attempts(s.claims, KeyOf(cfg, msg))
    ensures var (t, step) := Schedules.FirstWork(cfg, v, s, msg);
            Schedules.FirstWork(cfg, v, Rehung(s, claims, stamps), msg)
                == (Rehung(t, Schedules.ClaimsAfter(cfg, v, claims, KeyOf(cfg, msg), step), stamps), step)
  {
    var attempts := Attempts(s.claims, KeyOf(cfg, msg));
    var (worked, end) := DoWork(cfg, v.first, v.now, s, msg);
    WorkRehung(cfg, v.first, v.now, s, msg, claims, stamps);
    match end
    case Completed(_) =>
    case Failing(Permanent) => DeadLetterRehung(cfg, v, worked, msg, Failed(Permanent), attempts, claims, stamps);
    case Failing(Auth) => RefreshRehung(cfg, v, worked, msg, claims, stamps);
    case Failing(Transient) => RetryRehung(cfg, v, worked, msg, attempts, claims, stamps);
  }

  lemma AttemptRehung(cfg: Config, v: Visit, s: State, msg: RawMessage, claims: Claims, stamps: map<string, Time>)
    requires Attempts(claims, KeyOf(cfg, msg)) == Attempts(s.claims, KeyOf(cfg, msg))
    ensures var (t, step) := Attempt(cfg, v, s, msg);
            Attempt(cfg, v, Rehung(s, claims, stamps), msg)
                == (Rehung(t, Schedules.ClaimsAfter(cfg, v, claims, KeyOf(cfg, msg), step), stamps), step)
  {
    var attempts, size := Attempts(s.claims, KeyOf(cfg, msg)), if v.size.Ok? then SizeOf(v.size.value, msg) else 0;
    if v.size.Raise? {
    } else if size <= 0 {
      DeadLetterRehung(cfg, v, s, msg, SizeUnknown(size), attempts, claims, stamps);
    } else if cfg.maxMessageBytes < size {
      DeadLetterRehung(cfg, v, s, msg, Oversized(size, cfg.maxMessageBytes), attempts, claims, stamps);
    } else {
      FirstWorkRehung(cfg, v, s, msg, claims, stamps);
      assert Attempt(cfg, v, s, msg) == Schedules.FirstWork(cfg, v, s, msg);
      assert Attempt(cfg, v, Rehung(s, claims, stamps), msg)
          == Schedules.FirstWork(cfg, v, Rehung(s, claims, stamps), msg);
    }
  }

  /** A visit finds this claim and leaves those. */
  lemma ProcessRehung(cfg: Config, world: World, s: State, msg: RawMessage, claims: Claims, stamps: map<string, Time>)
    requires var key := KeyOf(cfg, msg);
             (key in claims <==> key in s.claims) && (key in claims ==> claims[key] == s.claims[key])
    ensures var key := KeyOf(cfg, msg);
            var (t, step) := Process(cfg, world, s, msg);
            && t.stamps == s.stamps
            && Process(cfg, world, Rehung(s, claims, stamps), msg)
                   == (Rehung(t, ClaimsLeft(cfg, world(s.visits, msg), claims, key, step), stamps), step)
            && t.claims == ClaimsLeft(cfg, world(s.visits, msg), s.claims, key, step)
  {
    if Claimable(s.claims, KeyOf(cfg, msg)) {
      var key, v, entered := KeyOf(cfg, msg), world(s.visits, msg), Entered(cfg, s, msg);
      var inside := Attempted(Claimed(claims, key), key);
      assert Rehung(entered, entered.claims, entered.stamps) == entered;
      AttemptRehung(cfg, v, entered, msg, entered.claims, entered.stamps);
      AttemptRehung(cfg, v, entered, msg, inside, stamps);
      assert Entered(cfg, Rehung(s, claims, stamps), msg) == Rehung(entered, inside, stamps);
      assert Process(cfg, world, s, msg) == Attempt(cfg, v, entered, msg);
      assert Process(cfg, world, Rehung(s, claims, stamps), msg)
          == Attempt(cfg, v, Rehung(entered, inside, stamps), msg);
    }
  }

  /** The claims after a visit that ended so. */
  function ClaimsLeft(cfg: Config, v: Visit, claims: Claims, key: string, step: Step): Claims {
    if !Claimable(claims, key) then claims
    else Schedules.ClaimsAfter(cfg, v, Attempted(Claimed(claims, key), key), key, step)
  }

  // ---- The claim machine moves along ----

  function PhaseOf(rec: ClaimRecord, stamp: Time): CM.Phase {
    if rec.done then CM.Finished(rec.expiresAt) else if rec.claimed then CM.Held(stamp) else CM.Free
  }

  /** The rows of the claim table. */
  function Rows(claims: Claims, stamps: map<string, Time>): CM.Machine {
    map key | key in claims :: CM.Entry(PhaseOf(claims[key], StampIn(stamps, key)), claims[key].attempts)
  }

  /** What a visit that ends so asks of the claim store. */
  function VisitOps(cfg: Config, v: Visit, key: string, now: Time, step: Step): seq<CM.Op> {
    [CM.TryClaim(key, Lease(cfg), now)] + if step == Terminal(Duplicate) then [] else WonOps(cfg, v, key, step)
  }

  function WonOps(cfg: Config, v: Visit, key: string, step: Step): seq<CM.Op> {
    [CM.RecordAttempt(key)] +
    match step
    case Terminal(_) => [CM.MarkDone(key, cfg.doneTtlSeconds, v.now)]
    case Pending => [CM.Release(key)]
    case Escaped => []
  }

  lemma OneOp(m: CM.Machine, op: CM.Op, ops: seq<CM.Op>)
    ensures CM.Final(m, [op] + ops) == CM.Final(CM.Apply(m, op), ops)
    ensures CM.Replies(m, [op] + ops) == [CM.ReplyTo(m, op)] + CM.Replies(CM.Apply(m, op), ops)
  {
    assert ([op] + ops)[1..] == ops;
  }

  /** The table grants a claim exactly if the pipeline's state does once the lapsed one yields. */
  lemma ClaimableAlike(cfg: Config, s: State, key: string, now: Time)
    ensures CM.Claimable(Rows(s.claims, s.stamps), key, Lease(cfg), now)
       <==> Claimable(Yielding(cfg, s, key, now).claims, key)
  {
  }

  lemma RowsPut(claims: Claims, stamps: map<string, Time>, key: string, rec: ClaimRecord, now: Time)
    ensures Rows(claims[key := rec], stamps[key := now])
         == Rows(claims, stamps)[key := CM.Entry(PhaseOf(rec, now), rec.attempts)]
  {
    var left := Rows(claims[key := rec], stamps[key := now]);
    var right := Rows(claims, stamps)[key := CM.Entry(PhaseOf(rec, now), rec.attempts)];
    assert left.Keys == claims.Keys + {key} == right.Keys;
    forall k | k in left ensures left[k] == right[k] {
      assert k != key ==> StampIn(stamps[key := now], k) == StampIn(stamps, k);
    }
  }

  /** The record of a claim just won and counted. */
  function Entering(claims: Claims, key: string): ClaimRecord {
    ClaimRecord(true, false, Attempts(claims, key) + 1, if key in claims then claims[key].expiresAt else None)
  }

  lemma EnteringPuts(cfg: Config, s: State, key: string, now: Time)
    requires Claimable(Yielding(cfg, s, key, now).claims, key)
    ensures Attempted(Claimed(Yielding(cfg, s, key, now).claims, key), key)
         == s.claims[key := Entering(s.claims, key)]
  {
  }

  lemma TablePuts(m: CM.Machine, key: string, lease: Time, now: Time)
    requires CM.Claimable(m, key, lease, now)
    ensures CM.Attempted(CM.Claimed(m, key, lease, now), key)
         == m[key := CM.Entry(CM.Held(now), CM.EntryAt(m, key).attempts + 1)]
  {
  }

  lemma EnteredAlike(cfg: Config, s: State, key: string, now: Time)
    requires Claimable(Yielding(cfg, s, key, now).claims, key)
    ensures CM.Attempted(CM.Claimed(Rows(s.claims, s.stamps), key, Lease(cfg), now), key)
         == Rows(Attempted(Claimed(Yielding(cfg, s, key, now).claims, key), key), s.stamps[key := now])
  {
    ClaimableAlike(cfg, s, key, now);
    TablePuts(Rows(s.claims, s.stamps), key, Lease(cfg), now);
    EnteringPuts(cfg, s, key, now);
    RowsPut(s.claims, s.stamps, key, Entering(s.claims, key), now);
  }

  /** The rest of the visit, likewise. */
  lemma EndsAlike(cfg: Config, v: Visit, claims: Claims, stamps: map<string, Time>, key: string, step: Step)
    requires key in claims
    ensures Schedules.StoreAfter(cfg, v, Rows(claims, stamps), key, step)
         == Rows(Schedules.ClaimsAfter(cfg, v, claims, key, step), stamps)
  {
  }

  lemma WonIsATrace(cfg: Config, v: Visit, m: CM.Machine, key: string, step: Step)
    ensures var counted := CM.Attempted(m, key);
            && CM.Final(m, WonOps(cfg, v, key, step)) == Schedules.StoreAfter(cfg, v, counted, key, step)
            && CM.Replies(m, WonOps(cfg, v, key, step))[0] == CM.Reply.Attempt(CM.EntryAt(counted, key).attempts)
  {
    var ops := WonOps(cfg, v, key, step);
    OneOp(m, CM.RecordAttempt(key), ops[1..]);
    assert ops == [CM.RecordAttempt(key)] + ops[1..];
    assert |ops[1..]| <= 1 && ops[1..][|ops[1..]|..] == [];
    if !step.Escaped? {
      OneOp(CM.Attempted(m, key), ops[1], []);
      assert ops[1..] == [ops[1]] + [];
    }
  }

  /** The claims and stamps a leased visit leaves. */
  lemma LeasedVisitLeaves(cfg: Config, world: World, clock: Clock, s: State, msg: RawMessage)
    ensures var key, now := KeyOf(cfg, msg), clock(s.visits, msg);
            var y := Yielding(cfg, s, key, now);
            var (t, step) := LeasedProcess(cfg, world, clock, s, msg);
            && (step == Terminal(Duplicate) <==> !Claimable(y.claims, key))
            && t.claims == ClaimsLeft(cfg, world(s.visits, msg), y.claims, key, step)
            && t.stamps == (if step == Terminal(Duplicate) then s.stamps else s.stamps[key := now])
            && (step == Terminal(Duplicate) ==> y == s)
  {
    var key, now := KeyOf(cfg, msg), clock(s.visits, msg);
    var y := Yielding(cfg, s, key, now);
    EveryVisit(cfg, world, y, msg);
    ProcessRehung(cfg, world, y, msg, y.claims, y.stamps);
  }

  /** A visit is these operations on the claim table, and the table grants the claim exactly
      if the visit is no duplicate. */
  lemma {:induction false} VisitIsATrace(cfg: Config, world: World, clock: Clock, s: State, msg: RawMessage)
    ensures var (t, step) := LeasedProcess(cfg, world, clock, s, msg);
            var key, now, rows := KeyOf(cfg, msg), clock(s.visits, msg), Rows(s.claims, s.stamps);
            var ops := VisitOps(cfg, world(s.visits, msg), key, now, step);
            && CM.Final(rows, ops) == Rows(t.claims, t.stamps)
            && CM.Replies(rows, ops)[0] == CM.Won(step != Terminal(Duplicate))
  {
    var key, v, now := KeyOf(cfg, msg), world(s.visits, msg), clock(s.visits, msg);
    var (t, step) := LeasedProcess(cfg, world, clock, s, msg);
    var rows, claim := Rows(s.claims, s.stamps), CM.TryClaim(key, Lease(cfg), now);
    LeasedVisitLeaves(cfg, world, clock, s, msg);
    ClaimableAlike(cfg, s, key, now);
    if step == Terminal(Duplicate) {
      OneOp(rows, claim, []);
      assert [claim] + [] == [claim];
    } else {
      var claimed := CM.Claimed(rows, key, Lease(cfg), now);
      OneOp(rows, claim, WonOps(cfg, v, key, step));
      WonIsATrace(cfg, v, claimed, key, step);
      EnteredAlike(cfg, s, key, now);
      EndsAlike(cfg, v, Attempted(Claimed(Yielding(cfg, s, key, now).claims, key), key), s.stamps[key := now], key,
                step);
    }
  }
}
