/** Any number of workers over one claim store, one atomic step at a time: a worker may
    stall, crash or let an exception escape between any two steps, and the clock runs on. */
module Workers {
  import opened Models
  import opened ClaimMachine

  type span = r: real | 0.0 <= r

  /** Workers read clocks of their own, each at most `skew` away from the time. */
  datatype Setup = Setup(lease: Time, skew: span, maxAttempts: int, durable: bool)

  /** What has irreversibly happened to a message. */
  datatype Outcome = Sent | Filtered | Sunk | Recorded

  /** Where a worker stands in its handling of one message. */
  datatype Pc =
    | Idle
    | Claiming(key: string, now: Time)
    | Owning(key: string, since: Time)
    | Sizing(key: string, since: Time, attempts: nat)
    | Working(key: string, since: Time, attempts: nat)
    | Retrying(key: string, since: Time)
    | Sinking(key: string, since: Time)
    | Settling(key: string, since: Time, outcome: Outcome)
    | Releasing(key: string, since: Time)

  datatype Sys = Sys(store: Machine, clock: Time, workers: map<nat, Pc>, log: multiset<(string, Outcome)>)

  /** An escaping exception is a `Crash`: either way the claim stays as it is. */
  datatype Action =
    | Tick(elapsed: Time)
    | Purge(until: Time)
    | Begin(worker: nat, key: string, reading: Time)
    | Claim(worker: nat)
    | CountAttempt(worker: nat)
    | Measure(worker: nat, fits: bool)
    | Emit(worker: nat)
    | Drop(worker: nat)
    | Fail(worker: nat, failure: Failure)
    | Sink(worker: nat)
    | PutRecord(worker: nat)
    | Finish(worker: nat, expiresAt: Time)
    | LetGo(worker: nat)
    | Crash(worker: nat)

  const START := Sys(map[], 0.0, map[], multiset{})

  function At(s: Sys, worker: nat): Pc {
    if worker in s.workers then s.workers[worker] else Idle
  }

  function Moved(s: Sys, worker: nat, pc: Pc): Sys {
    s.(workers := s.workers[worker := pc])
  }

  function Settled(s: Sys, worker: nat, key: string, since: Time, outcome: Outcome): Sys {
    Moved(s, worker, Settling(key, since, outcome)).(log := s.log + multiset{(key, outcome)})
  }

  /** A clock may show this now. */
  predicate Readable(cfg: Setup, s: Sys, reading: Time) {
    s.clock - cfg.skew <= reading <= s.clock + cfg.skew
  }

  /** Does the pipeline mark a message done from here?  With a durable store, not before
      the record is put. */
  predicate MayFinish(cfg: Setup, pc: Pc) {
    pc.Settling? && (pc.outcome == Sunk ==> !cfg.durable)
  }

  function AfterFailure(cfg: Setup, pc: Pc, failure: Failure): Pc {
    match pc
    case Working(key, since, attempts) =>
      (match failure
       case Permanent => Sinking(key, since)
       case Auth => Retrying(key, since)
       case Transient => if cfg.maxAttempts <= attempts then Sinking(key, since) else Releasing(key, since))
    case Retrying(key, since) => Sinking(key, since)
    case _ => pc
  }

  /** One step; an action its worker is not ready for changes nothing. */
  function Step(cfg: Setup, s: Sys, action: Action): Sys {
    match action
    case Tick(elapsed) => if elapsed >= 0.0 then s.(clock := s.clock + elapsed) else s
    case Purge(until) => s.(store := Purged(s.store, until))
    case _ => WorkerStep(cfg, s, action, action.worker)
  }

  function WorkerStep(cfg: Setup, s: Sys, action: Action, worker: nat): Sys
    requires !action.Tick? && !action.Purge?
  {
    match (action, At(s, worker))
    case (Begin(_, key, reading), Idle) =>
      if Readable(cfg, s, reading) then Moved(s, worker, Claiming(key, reading)) else s
    case (Claim(_), Claiming(key, now)) =>
      if Claimable(s.store, key, cfg.lease, now)
      then Moved(s, worker, Owning(key, now)).(store := Claimed(s.store, key, cfg.lease, now))
      else Moved(s, worker, Idle)
    case (CountAttempt(_), Owning(key, since)) =>
      var store := Attempted(s.store, key);
      Moved(s, worker, Sizing(key, since, EntryAt(store, key).attempts)).(store := store)
    case (Measure(_, fits), Sizing(key, since, attempts)) =>
      Moved(s, worker, if fits then Working(key, since, attempts) else Sinking(key, since))
    case (Emit(_), Working(key, since, _)) => Settled(s, worker, key, since, Sent)
    case (Emit(_), Retrying(key, since)) => Settled(s, worker, key, since, Sent)
    case (Drop(_), Working(key, since, _)) => Settled(s, worker, key, since, Filtered)
    case (Drop(_), Retrying(key, since)) => Settled(s, worker, key, since, Filtered)
    case (Fail(_, failure), pc) => Moved(s, worker, AfterFailure(cfg, pc, failure))
    case (Sink(_), Sinking(key, since)) => Settled(s, worker, key, since, Sunk)
    case (PutRecord(_), Settling(key, since, Sunk)) =>
      if cfg.durable then Settled(s, worker, key, since, Recorded) else s
    case (Finish(_, expiresAt), Settling(key, since, outcome)) =>
      if MayFinish(cfg, Settling(key, since, outcome))
      then Moved(s, worker, Idle).(store := MarkedDone(s.store, key, expiresAt))
      else s
    case (LetGo(_), Releasing(key, _)) => Moved(s, worker, Idle).(store := Released(s.store, key))
    case (Crash(_), _) => Moved(s, worker, Idle)
    case _ => s
  }

  function Exec(cfg: Setup, s: Sys, actions: seq<Action>): Sys
    decreases |actions|
  {
    if actions == [] then s else Exec(cfg, Step(cfg, s, actions[0]), actions[1..])
  }

  // ---- Nothing is done without an outcome ----

  /** A message is accounted for: delivered, filtered out, or dead-lettered, durably so
      when there is a durable store. */
  predicate AccountedFor(cfg: Setup, s: Sys, key: string) {
    (key, Sent) in s.log || (key, Filtered) in s.log
    || (key, if cfg.durable then Recorded else Sunk) in s.log
  }

  predicate PcIsBacked(cfg: Setup, s: Sys, pc: Pc) {
    match pc
    case Claiming(_, now) => now <= s.clock + cfg.skew
    case Settling(key, _, outcome) => (key, outcome) in s.log && (outcome == Recorded ==> cfg.durable)
    case _ => true
  }

  predicate StampIsPast(cfg: Setup, s: Sys, key: string) {
    EntryAt(s.store, key).phase.Held? ==> EntryAt(s.store, key).phase.since <= s.clock + cfg.skew
  }

  ghost predicate Safe(cfg: Setup, s: Sys) {
    && (forall key :: IsFinished(s.store, key) ==> AccountedFor(cfg, s, key))
    && (forall key :: (key, Recorded) in s.log ==> (key, Sunk) in s.log)
    && (forall key :: StampIsPast(cfg, s, key))
    && (forall worker :: PcIsBacked(cfg, s, At(s, worker)))
  }

  /** The worker an action belongs to is about to mark this key done. */
  predicate Finishes(cfg: Setup, s: Sys, action: Action, key: string) {
    action.Finish? && MayFinish(cfg, At(s, action.worker)) && At(s, action.worker).key == key
  }

  /** A key becomes done by a permitted `Finish` only. */
  lemma FinishedBy(cfg: Setup, s: Sys, action: Action, key: string)
    requires IsFinished(Step(cfg, s, action).store, key)
    ensures IsFinished(s.store, key) || Finishes(cfg, s, action, key)
  {
  }

  lemma LogGrows(cfg: Setup, s: Sys, action: Action)
    ensures s.log <= Step(cfg, s, action).log
    ensures s.clock <= Step(cfg, s, action).clock
  {
  }

  lemma StampsStayPast(cfg: Setup, s: Sys, action: Action, key: string)
    requires Safe(cfg, s)
    ensures StampIsPast(cfg, Step(cfg, s, action), key)
  {
    assert StampIsPast(cfg, s, key);
    if !action.Tick? && !action.Purge? {
      assert PcIsBacked(cfg, s, At(s, action.worker));
    }
  }

  predicate ByOther(action: Action, worker: nat) {
    !action.Tick? && !action.Purge? ==> action.worker != worker
  }

  lemma OtherLeavesAlone(cfg: Setup, s: Sys, action: Action, worker: nat)
    requires ByOther(action, worker)
    ensures At(Step(cfg, s, action), worker) == At(s, worker)
  {
  }

  lemma PcsStayBacked(cfg: Setup, s: Sys, action: Action, worker: nat)
    requires Safe(cfg, s)
    ensures PcIsBacked(cfg, Step(cfg, s, action), At(Step(cfg, s, action), worker))
  {
    LogGrows(cfg, s, action);
    assert PcIsBacked(cfg, s, At(s, worker));
    if ByOther(action, worker) {
      OtherLeavesAlone(cfg, s, action, worker);
    } else {
      OwnPcStaysBacked(cfg, s, action);
    }
  }

  lemma OwnPcStaysBacked(cfg: Setup, s: Sys, action: Action)
    requires !action.Tick? && !action.Purge? && PcIsBacked(cfg, s, At(s, action.worker))
    ensures PcIsBacked(cfg, Step(cfg, s, action), At(Step(cfg, s, action), action.worker))
  {
  }

  lemma {:induction false} StepIsSafe(cfg: Setup, s: Sys, action: Action)
    requires Safe(cfg, s)
    ensures Safe(cfg, Step(cfg, s, action))
  {
    var next := Step(cfg, s, action);
    LogGrows(cfg, s, action);
    forall worker ensures PcIsBacked(cfg, next, At(next, worker)) {
      PcsStayBacked(cfg, s, action, worker);
    }
    forall key ensures StampIsPast(cfg, next, key) {
      StampsStayPast(cfg, s, action, key);
    }
    forall key | IsFinished(next.store, key) ensures AccountedFor(cfg, next, key) {
      FinishedBy(cfg, s, action, key);
      if Finishes(cfg, s, action, key) {
        assert PcIsBacked(cfg, s, At(s, action.worker));
      }
    }
    forall key | (key, Recorded) in next.log ensures (key, Sunk) in next.log {
      RecordFollowsSink(cfg, s, action, key);
    }
  }

  lemma RecordFollowsSink(cfg: Setup, s: Sys, action: Action, key: string)
    requires Safe(cfg, s) && (key, Recorded) in Step(cfg, s, action).log
    ensures (key, Sunk) in Step(cfg, s, action).log
  {
    LogGrows(cfg, s, action);
    if action.PutRecord? {
      assert PcIsBacked(cfg, s, At(s, action.worker));
    }
  }

  lemma {:induction false} ExecIsSafe(cfg: Setup, s: Sys, actions: seq<Action>)
    requires Safe(cfg, s)
    ensures Safe(cfg, Exec(cfg, s, actions))
    decreases |actions|
  {
    if actions != [] {
      StepIsSafe(cfg, s, actions[0]);
      ExecIsSafe(cfg, Step(cfg, s, actions[0]), actions[1..]);
    }
  }

  /** Under every interleaving, stall, crash, escape and purge: a done message was
      delivered, filtered out or dead-lettered first, and no record precedes its sink. */
  lemma NothingIsLost(cfg: Setup, actions: seq<Action>)
    ensures Safe(cfg, Exec(cfg, START, actions))
  {
    ExecIsSafe(cfg, START, actions);
  }

  // ---- Whatever is not done can still be delivered ----

  lemma {:induction false} ExecJoins(cfg: Setup, s: Sys, first: seq<Action>, second: seq<Action>)
    ensures Exec(cfg, s, first + second) == Exec(cfg, Exec(cfg, s, first), second)
    decreases |first|
  {
    if first == [] {
      assert first + second == second;
    } else {
      assert (first + second)[1..] == first[1..] + second;
      ExecJoins(cfg, Step(cfg, s, first[0]), first[1..], second);
    }
  }

  /** The time after which any claim may be taken over, whatever the clocks show. */
  function Wait(cfg: Setup): Time {
    (if cfg.lease < 0.0 then 0.0 else cfg.lease) + 2.0 * cfg.skew
  }

  /** Wait out one lease and claim. */
  function Reclaiming(cfg: Setup, s: Sys, worker: nat, key: string): seq<Action> {
    [Tick(Wait(cfg)), Begin(worker, key, s.clock + Wait(cfg)), Claim(worker)]
  }

  /** From a won claim to a done message. */
  function Delivering(worker: nat, expiresAt: Time): seq<Action> {
    [CountAttempt(worker), Measure(worker, true), Emit(worker), Finish(worker, expiresAt)]
  }

  lemma {:induction false} Three(cfg: Setup, s: Sys, a: Action, b: Action, c: Action)
    ensures Exec(cfg, s, [a, b, c]) == Step(cfg, Step(cfg, Step(cfg, s, a), b), c)
  {
    assert [a, b, c][1..] == [b, c] && [b, c][1..] == [c] && [c][1..] == [];
    assert Exec(cfg, s, [a, b, c]) == Exec(cfg, Step(cfg, s, a), [b, c]);
    assert Exec(cfg, Step(cfg, s, a), [b, c]) == Exec(cfg, Step(cfg, Step(cfg, s, a), b), [c]);
  }

  lemma WaitedIsClaimable(cfg: Setup, s: Sys, key: string)
    requires Safe(cfg, s) && !IsFinished(s.store, key)
    ensures Claimable(s.store, key, cfg.lease, s.clock + Wait(cfg))
  {
    assert StampIsPast(cfg, s, key);
  }

  lemma {:induction false} WinsBack(cfg: Setup, s: Sys, key: string, worker: nat)
    requires Safe(cfg, s)
    requires !IsFinished(s.store, key) && At(s, worker).Idle?
    ensures var owning := Exec(cfg, s, Reclaiming(cfg, s, worker, key));
            At(owning, worker).Owning? && At(owning, worker).key == key && owning.log == s.log
  {
    WaitedIsClaimable(cfg, s, key);
    var waited := Step(cfg, s, Tick(Wait(cfg)));
    var began := Step(cfg, waited, Begin(worker, key, s.clock + Wait(cfg)));
    assert waited == s.(clock := s.clock + Wait(cfg));
    assert began == Moved(waited, worker, Claiming(key, s.clock + Wait(cfg)));
    Three(cfg, s, Tick(Wait(cfg)), Begin(worker, key, s.clock + Wait(cfg)), Claim(worker));
  }

  lemma {:induction false} OwnerDelivers(cfg: Setup, s: Sys, worker: nat, expiresAt: Time)
    requires At(s, worker).Owning?
    ensures var end := Exec(cfg, s, Delivering(worker, expiresAt));
            IsFinished(end.store, At(s, worker).key) && end.log == s.log + multiset{(At(s, worker).key, Sent)}
  {
    var path := Delivering(worker, expiresAt);
    assert path == [path[0]] + [path[1], path[2], path[3]];
    ExecJoins(cfg, s, [path[0]], [path[1], path[2], path[3]]);
    Two(cfg, s, path[0], path[0]);
    SizingDelivers(cfg, Step(cfg, s, path[0]), worker, expiresAt);
  }

  lemma {:induction false} SizingDelivers(cfg: Setup, s: Sys, worker: nat, expiresAt: Time)
    requires At(s, worker).Sizing?
    ensures var end := Exec(cfg, s, [Measure(worker, true), Emit(worker), Finish(worker, expiresAt)]);
            IsFinished(end.store, At(s, worker).key) && end.log == s.log + multiset{(At(s, worker).key, Sent)}
  {
    var pc := At(s, worker);
    var measured := Step(cfg, s, Measure(worker, true));
    assert measured == Moved(s, worker, Working(pc.key, pc.since, pc.attempts));
    var sent := Step(cfg, measured, Emit(worker));
    assert sent == Settled(measured, worker, pc.key, pc.since, Sent);
    Three(cfg, s, Measure(worker, true), Emit(worker), Finish(worker, expiresAt));
  }

  /** After any run at all, a message that is not done can be delivered by any idle worker
      that waits out one lease. */
  lemma {:induction false} UndoneIsDeliverable(cfg: Setup, actions: seq<Action>, key: string, worker: nat,
                                               expiresAt: Time)
    requires var s := Exec(cfg, START, actions); !IsFinished(s.store, key) && At(s, worker).Idle?
    ensures var s := Exec(cfg, START, actions);
            var end := Exec(cfg, s, Reclaiming(cfg, s, worker, key) + Delivering(worker, expiresAt));
            IsFinished(end.store, key) && end.log == s.log + multiset{(key, Sent)}
  {
    var s := Exec(cfg, START, actions);
    NothingIsLost(cfg, actions);
    WinsBack(cfg, s, key, worker);
    ExecJoins(cfg, s, Reclaiming(cfg, s, worker, key), Delivering(worker, expiresAt));
    OwnerDelivers(cfg, Exec(cfg, s, Reclaiming(cfg, s, worker, key)), worker, expiresAt);
  }

  // ---- Exclusion, when everyone is in time ----

  predicate Owns(pc: Pc, key: string) {
    !pc.Idle? && !pc.Claiming? && pc.key == key
  }

  /** The stage of an outcome: a record belongs to the dead letter already sunk. */
  function Stage(outcome: Outcome): Outcome {
    if outcome == Recorded then Sunk else outcome
  }

  /** How often one of these outcomes has happened to the key. */
  function Times(log: multiset<(string, Outcome)>, key: string, stages: set<Outcome>): nat {
    (if Sent in stages then log[(key, Sent)] else 0)
    + (if Filtered in stages then log[(key, Filtered)] else 0)
    + (if Sunk in stages then log[(key, Sunk)] else 0)
  }

  predicate HasSettled(pc: Pc, stages: set<Outcome>) {
    pc.Settling? && Stage(pc.outcome) in stages
  }

  ghost predicate InTime(cfg: Setup, s: Sys) {
    forall worker :: InLease(cfg, s, At(s, worker))
  }

  /** Whoever has won a claim is still inside its lease, by any clock. */
  predicate InLease(cfg: Setup, s: Sys, pc: Pc) {
    !pc.Idle? && !pc.Claiming? ==> s.clock + cfg.skew - pc.since < cfg.lease
  }

  /** No crash between one of these outcomes and `mark_done`, and no purge of a key that has one. */
  ghost predicate Orderly(s: Sys, action: Action, stages: set<Outcome>) {
    && (action.Crash? ==> !HasSettled(At(s, action.worker), stages))
    && (action.Purge? ==> forall key | key in ExpiredKeys(s.store, action.until) :: Times(s.log, key, stages) == 0)
  }

  ghost predicate Timely(cfg: Setup, s: Sys, actions: seq<Action>, stages: set<Outcome>)
    decreases |actions|
  {
    actions != [] ==>
      InTime(cfg, s) && Orderly(s, actions[0], stages) && Timely(cfg, Step(cfg, s, actions[0]), actions[1..], stages)
  }

  /** An owner holds exactly the store's claim. */
  predicate HoldsItsClaim(s: Sys, pc: Pc) {
    !pc.Idle? && !pc.Claiming? ==> EntryAt(s.store, pc.key).phase == Held(pc.since)
  }

  ghost predicate Excludes(s: Sys) {
    && (forall worker :: HoldsItsClaim(s, At(s, worker)))
    && (forall a, b, key :: Owns(At(s, a), key) && Owns(At(s, b), key) ==> a == b)
  }

  /** One outcome at most, and then the key is done or its owner is about to say so. */
  ghost predicate Once(s: Sys, key: string, stages: set<Outcome>) {
    Times(s.log, key, stages) <= 1
    && (Times(s.log, key, stages) == 1 ==>
          IsFinished(s.store, key) || exists worker :: Owns(At(s, worker), key) && HasSettled(At(s, worker), stages))
  }

  ghost predicate Exclusive(cfg: Setup, s: Sys, stages: set<Outcome>) {
    Safe(cfg, s) && Excludes(s) && forall key :: Once(s, key, stages)
  }

  /** Nobody can take over a claim whose owner is in time. */
  lemma OwnedIsNotClaimable(cfg: Setup, s: Sys, owner: nat, other: nat)
    requires Safe(cfg, s) && Excludes(s) && InTime(cfg, s)
    requires At(s, other).Claiming? && Owns(At(s, owner), At(s, other).key)
    ensures !Claimable(s.store, At(s, other).key, cfg.lease, At(s, other).now)
  {
    assert InLease(cfg, s, At(s, owner)) && HoldsItsClaim(s, At(s, owner)) && PcIsBacked(cfg, s, At(s, other));
  }

  predicate Wins(cfg: Setup, s: Sys, action: Action) {
    action.Claim? && At(s, action.worker).Claiming?
    && Claimable(s.store, At(s, action.worker).key, cfg.lease, At(s, action.worker).now)
  }

  /** Ownership is only ever gained by winning a claim. */
  lemma OwnershipIsWon(cfg: Setup, s: Sys, action: Action, worker: nat, key: string)
    requires Owns(At(Step(cfg, s, action), worker), key)
    ensures Owns(At(s, worker), key)
         || (Wins(cfg, s, action) && action.worker == worker && At(s, worker).key == key)
  {
  }

  lemma {:induction false} StillOneOwner(cfg: Setup, s: Sys, action: Action, a: nat, b: nat, key: string)
    requires Safe(cfg, s) && Excludes(s) && InTime(cfg, s)
    requires Owns(At(Step(cfg, s, action), a), key) && Owns(At(Step(cfg, s, action), b), key)
    ensures a == b
  {
    OwnershipIsWon(cfg, s, action, a, key);
    OwnershipIsWon(cfg, s, action, b, key);
    if Owns(At(s, a), key) && !Owns(At(s, b), key) {
      OwnedIsNotClaimable(cfg, s, a, b);
    } else if Owns(At(s, b), key) && !Owns(At(s, a), key) {
      OwnedIsNotClaimable(cfg, s, b, a);
    }
  }

  /** What one worker does to a key leaves the claim of another owner of another key alone. */
  lemma PhaseChangesByOwner(cfg: Setup, s: Sys, action: Action, key: string)
    requires EntryAt(s.store, key).phase.Held?
    requires EntryAt(Step(cfg, s, action).store, key).phase != EntryAt(s.store, key).phase
    ensures !action.Tick? && !action.Purge? && !At(s, action.worker).Idle? && At(s, action.worker).key == key
    ensures At(s, action.worker).Claiming? ==> Wins(cfg, s, action)
    ensures At(Step(cfg, s, action), action.worker).Idle? || Wins(cfg, s, action)
  {
  }

  /** An owner keeps its stamp for as long as it owns the key. */
  lemma StampsStay(cfg: Setup, s: Sys, action: Action, worker: nat, key: string)
    requires Owns(At(s, worker), key) && Owns(At(Step(cfg, s, action), worker), key)
    ensures At(Step(cfg, s, action), worker).since == At(s, worker).since
  {
  }

  /** A winner's stamp is the one it wrote into the store. */
  lemma WinnerHoldsItsClaim(cfg: Setup, s: Sys, action: Action)
    requires Wins(cfg, s, action)
    ensures HoldsItsClaim(Step(cfg, s, action), At(Step(cfg, s, action), action.worker))
  {
  }

  lemma {:induction false} StillHoldsItsClaim(cfg: Setup, s: Sys, action: Action, worker: nat)
    requires Safe(cfg, s) && Excludes(s) && InTime(cfg, s)
    ensures HoldsItsClaim(Step(cfg, s, action), At(Step(cfg, s, action), worker))
  {
    var next := Step(cfg, s, action);
    var pc := At(next, worker);
    assert HoldsItsClaim(s, At(s, worker));
    if !pc.Idle? && !pc.Claiming? {
      assert Owns(pc, pc.key);
      OwnershipIsWon(cfg, s, action, worker, pc.key);
      if !Owns(At(s, worker), pc.key) {
        WinnerHoldsItsClaim(cfg, s, action);
      } else {
        StampsStay(cfg, s, action, worker, pc.key);
        if EntryAt(next.store, pc.key).phase != EntryAt(s.store, pc.key).phase {
          PhaseChangesByOwner(cfg, s, action, pc.key);
          if Wins(cfg, s, action) {
            OwnedIsNotClaimable(cfg, s, worker, action.worker);
          }
          assert false;
        }
      }
    }
  }

  /** The step settles the key with one of these outcomes. */
  predicate Settles(cfg: Setup, s: Sys, action: Action, key: string, stages: set<Outcome>) {
    !action.Tick? && !action.Purge?
    && Owns(At(s, action.worker), key) && !At(s, action.worker).Settling?
    && HasSettled(At(Step(cfg, s, action), action.worker), stages)
    && Owns(At(Step(cfg, s, action), action.worker), key)
  }

  lemma TimesAdds(log: multiset<(string, Outcome)>, owner: string, outcome: Outcome, key: string, stages: set<Outcome>)
    ensures Times(log + multiset{(owner, outcome)}, key, stages)
         == Times(log, key, stages) + if owner == key && outcome != Recorded && outcome in stages then 1 else 0
  {
  }

  /** The step takes its worker to a new outcome. */
  predicate Reaches(cfg: Setup, s: Sys, action: Action) {
    !action.Tick? && !action.Purge? && At(Step(cfg, s, action), action.worker).Settling?
    && At(Step(cfg, s, action), action.worker) != At(s, action.worker)
  }

  lemma LogFollows(cfg: Setup, s: Sys, action: Action)
    ensures if Reaches(cfg, s, action) then
              var pc := At(Step(cfg, s, action), action.worker);
              Owns(At(s, action.worker), pc.key) && (At(s, action.worker).Settling? <==> pc.outcome == Recorded)
              && Step(cfg, s, action).log == s.log + multiset{(pc.key, pc.outcome)}
            else Step(cfg, s, action).log == s.log
  {
  }

  lemma OutcomesComeFromSettling(cfg: Setup, s: Sys, action: Action, key: string, stages: set<Outcome>)
    ensures var before, after := Times(s.log, key, stages), Times(Step(cfg, s, action).log, key, stages);
            if Settles(cfg, s, action, key, stages) then after == before + 1 else after == before
  {
    LogFollows(cfg, s, action);
    if Reaches(cfg, s, action) {
      var pc := At(Step(cfg, s, action), action.worker);
      TimesAdds(s.log, pc.key, pc.outcome, key, stages);
      assert Settles(cfg, s, action, key, stages) <==> pc.key == key && pc.outcome != Recorded && pc.outcome in stages;
    } else {
      assert !Settles(cfg, s, action, key, stages);
    }
  }

  /** A settled owner stays one until the key is done. */
  lemma SettledOwnerFinishes(cfg: Setup, s: Sys, action: Action, worker: nat, key: string, stages: set<Outcome>)
    requires Orderly(s, action, stages)
    requires Owns(At(s, worker), key) && HasSettled(At(s, worker), stages)
    ensures var next := Step(cfg, s, action);
            IsFinished(next.store, key) || (Owns(At(next, worker), key) && HasSettled(At(next, worker), stages))
  {
  }

  lemma DoneStays(cfg: Setup, s: Sys, action: Action, key: string)
    requires action.Purge? ==> key !in ExpiredKeys(s.store, action.until)
    requires IsFinished(s.store, key)
    ensures IsFinished(Step(cfg, s, action).store, key)
  {
  }

  lemma {:induction false} StillOnce(cfg: Setup, s: Sys, action: Action, key: string, stages: set<Outcome>)
    requires Excludes(s) && Once(s, key, stages) && Orderly(s, action, stages)
    ensures Once(Step(cfg, s, action), key, stages)
  {
    var next := Step(cfg, s, action);
    OutcomesComeFromSettling(cfg, s, action, key, stages);
    if Settles(cfg, s, action, key, stages) {
      assert HoldsItsClaim(s, At(s, action.worker));
      assert !IsFinished(s.store, key);
      assert Times(s.log, key, stages) == 0;
    } else if Times(s.log, key, stages) == 1 {
      if IsFinished(s.store, key) {
        DoneStays(cfg, s, action, key);
      } else {
        var worker :| Owns(At(s, worker), key) && HasSettled(At(s, worker), stages);
        SettledOwnerFinishes(cfg, s, action, worker, key, stages);
      }
    }
  }

  lemma {:induction false} ExecExcludes(cfg: Setup, s: Sys, actions: seq<Action>, stages: set<Outcome>)
    requires Exclusive(cfg, s, stages) && Timely(cfg, s, actions, stages)
    ensures Exclusive(cfg, Exec(cfg, s, actions), stages)
    decreases |actions|
  {
    if actions != [] {
      var next := Step(cfg, s, actions[0]);
      StepIsSafe(cfg, s, actions[0]);
      forall worker ensures HoldsItsClaim(next, At(next, worker)) {
        StillHoldsItsClaim(cfg, s, actions[0], worker);
      }
      forall a, b, key | Owns(At(next, a), key) && Owns(At(next, b), key) ensures a == b {
        StillOneOwner(cfg, s, actions[0], a, b, key);
      }
      forall key ensures Once(next, key, stages) {
        StillOnce(cfg, s, actions[0], key, stages);
      }
      ExecExcludes(cfg, next, actions[1..], stages);
    }
  }

  /** When every owner is inside its lease, one worker at most works on a key, whoever
      crashes and whatever is purged. */
  lemma {:induction false} OneOwnerAtATime(cfg: Setup, actions: seq<Action>, a: nat, b: nat, key: string)
    requires Timely(cfg, START, actions, {})
    requires Owns(At(Exec(cfg, START, actions), a), key) && Owns(At(Exec(cfg, START, actions), b), key)
    ensures a == b
  {
    ExecExcludes(cfg, START, actions, {});
  }

  /** When moreover none crashes between emit and done, and no emitted key is purged, every
      key is emitted at most once. */
  lemma {:induction false} EmittedAtMostOnce(cfg: Setup, actions: seq<Action>)
    requires Timely(cfg, START, actions, {Sent})
    ensures forall key :: Exec(cfg, START, actions).log[(key, Sent)] <= 1
  {
    ExecExcludes(cfg, START, actions, {Sent});
    var end := Exec(cfg, START, actions);
    forall key ensures end.log[(key, Sent)] <= 1 {
      assert Once(end, key, {Sent});
    }
  }

  /** With no crash after any outcome and no such key purged, a key has one outcome at most. */
  lemma {:induction false} OneOutcomeAtMost(cfg: Setup, actions: seq<Action>)
    requires Timely(cfg, START, actions, {Sent, Filtered, Sunk})
    ensures var end := Exec(cfg, START, actions);
            forall key :: end.log[(key, Sent)] + end.log[(key, Filtered)] + end.log[(key, Sunk)] <= 1
  {
    ExecExcludes(cfg, START, actions, {Sent, Filtered, Sunk});
    var end := Exec(cfg, START, actions);
    forall key ensures end.log[(key, Sent)] + end.log[(key, Filtered)] + end.log[(key, Sunk)] <= 1 {
      assert Once(end, key, {Sent, Filtered, Sunk});
    }
  }

  // ---- Why the conditions are needed ----

  lemma {:induction false} OthersLeaveAlone(cfg: Setup, s: Sys, actions: seq<Action>, worker: nat)
    requires forall a | a in actions :: ByOther(a, worker)
    ensures At(Exec(cfg, s, actions), worker) == At(s, worker)
    decreases |actions|
  {
    if actions != [] {
      assert actions[0] in actions && forall a | a in actions[1..] :: a in actions;
      OtherLeavesAlone(cfg, s, actions[0], worker);
      OthersLeaveAlone(cfg, Step(cfg, s, actions[0]), actions[1..], worker);
    }
  }

  /** After these actions, worker 1 takes the key over and delivers it. */
  function TakingOver(cfg: Setup, before: seq<Action>, key: string, expiresAt: Time): seq<Action> {
    before + (Reclaiming(cfg, Exec(cfg, START, before), 1, key) + Delivering(1, expiresAt))
  }

  lemma {:induction false} TakesOver(cfg: Setup, before: seq<Action>, key: string, expiresAt: Time)
    requires var s := Exec(cfg, START, before); !IsFinished(s.store, key) && At(s, 1).Idle?
    ensures var s, end := Exec(cfg, START, before), Exec(cfg, START, TakingOver(cfg, before, key, expiresAt));
            end.log == s.log + multiset{(key, Sent)} && At(end, 0) == At(s, 0)
  {
    var s := Exec(cfg, START, before);
    var reclaim, deliver := Reclaiming(cfg, s, 1, key), Delivering(1, expiresAt);
    NothingIsLost(cfg, before);
    WinsBack(cfg, s, key, 1);
    ExecJoins(cfg, START, before, reclaim + deliver);
    ExecJoins(cfg, s, reclaim, deliver);
    OwnerDelivers(cfg, Exec(cfg, s, reclaim), 1, expiresAt);
    OthersLeaveAlone(cfg, s, reclaim + deliver, 0);
  }

  /** Worker 0 wins the key and gets as far as working on it. */
  function Starting(cfg: Setup, key: string): seq<Action> {
    Reclaiming(cfg, START, 0, key) + [CountAttempt(0), Measure(0, true)]
  }

  lemma {:induction false} Started(cfg: Setup, key: string)
    ensures var s := Exec(cfg, START, Starting(cfg, key));
            Safe(cfg, s) && s.log == multiset{} && At(s, 0).Working? && At(s, 0).key == key && At(s, 1).Idle?
            && !IsFinished(s.store, key)
  {
    NothingIsLost(cfg, Starting(cfg, key));
    WinsBack(cfg, START, key, 0);
    OthersLeaveAlone(cfg, START, Starting(cfg, key), 1);
    var owning := Exec(cfg, START, Reclaiming(cfg, START, 0, key));
    ExecJoins(cfg, START, Reclaiming(cfg, START, 0, key), [CountAttempt(0), Measure(0, true)]);
    Two(cfg, owning, CountAttempt(0), Measure(0, true));
    var s := Exec(cfg, START, Starting(cfg, key));
    assert IsFinished(s.store, key) ==> AccountedFor(cfg, s, key);
  }

  lemma {:induction false} Two(cfg: Setup, s: Sys, a: Action, b: Action)
    ensures Exec(cfg, s, [a, b]) == Step(cfg, Step(cfg, s, a), b)
    ensures Exec(cfg, s, [a]) == Step(cfg, s, a)
  {
    assert [a, b][1..] == [b] && [b][1..] == [] && [a][1..] == [];
    assert Exec(cfg, s, [a, b]) == Exec(cfg, Step(cfg, s, a), [b]);
  }

  /** A worker that stalls past its lease and emits only then: nobody crashes, yet the
      message goes out twice. */
  lemma {:induction false} StallEmitsTwice(cfg: Setup, key: string, expiresAt: Time)
    ensures Exec(cfg, START, TakingOver(cfg, Starting(cfg, key), key, expiresAt) + [Emit(0)]).log[(key, Sent)] == 2
  {
    var taken := TakingOver(cfg, Starting(cfg, key), key, expiresAt);
    Started(cfg, key);
    TakesOver(cfg, Starting(cfg, key), key, expiresAt);
    ExecJoins(cfg, START, taken, [Emit(0)]);
    Two(cfg, Exec(cfg, START, taken), Emit(0), Emit(0));
  }

  lemma {:induction false} StartedAnd(cfg: Setup, key: string, first: Action, second: Action)
    ensures Exec(cfg, START, Starting(cfg, key) + [first, second])
         == Step(cfg, Step(cfg, Exec(cfg, START, Starting(cfg, key)), first), second)
  {
    ExecJoins(cfg, START, Starting(cfg, key), [first, second]);
    Two(cfg, Exec(cfg, START, Starting(cfg, key)), first, second);
  }

  /** A worker that crashes between emitting and `mark_done`: once the lease is over the
      message goes out again. */
  lemma {:induction false} CrashEmitsTwice(cfg: Setup, key: string, expiresAt: Time)
    ensures var crashed := Starting(cfg, key) + [Emit(0), Crash(0)];
            Exec(cfg, START, TakingOver(cfg, crashed, key, expiresAt)).log[(key, Sent)] == 2
  {
    Started(cfg, key);
    StartedAnd(cfg, key, Emit(0), Crash(0));
    TakesOver(cfg, Starting(cfg, key) + [Emit(0), Crash(0)], key, expiresAt);
  }

  lemma {:induction false} DeliveredAndPurged(cfg: Setup, key: string, expiresAt: Time)
    ensures var s := Exec(cfg, START, Starting(cfg, key) + [Emit(0), Finish(0, expiresAt)] + [Action.Purge(expiresAt)]);
            s.log == multiset{(key, Sent)} && !IsFinished(s.store, key) && At(s, 1).Idle?
  {
    var done := Starting(cfg, key) + [Emit(0), Finish(0, expiresAt)];
    Started(cfg, key);
    StartedAnd(cfg, key, Emit(0), Finish(0, expiresAt));
    ExecJoins(cfg, START, done, [Action.Purge(expiresAt)]);
    Two(cfg, Exec(cfg, START, done), Action.Purge(expiresAt), Action.Purge(expiresAt));
  }

  /** A message that was delivered, done and then purged goes out again if it comes again. */
  lemma {:induction false} PurgeEmitsTwice(cfg: Setup, key: string, expiresAt: Time)
    ensures var purged := Starting(cfg, key) + [Emit(0), Finish(0, expiresAt)] + [Action.Purge(expiresAt)];
            Exec(cfg, START, TakingOver(cfg, purged, key, expiresAt)).log[(key, Sent)] == 2
  {
    DeliveredAndPurged(cfg, key, expiresAt);
    TakesOver(cfg, Starting(cfg, key) + [Emit(0), Finish(0, expiresAt)] + [Action.Purge(expiresAt)], key, expiresAt);
  }
}
