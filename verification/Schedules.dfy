/** The pipeline is one of the workers: whatever the outside world answers during a visit,
    the visit is a schedule of the worker machine's steps, with the same effect on the
    claims and the same outcomes. */
module Schedules {
  import opened Models
  import opened Observability
  import opened Delivery
  import M = MemoryStores
  import CM = ClaimMachine
  import opened DedupeRefinement
  import W = Workers
  import V = Visits

  function SetupOf(cfg: Config): W.Setup {
    W.Setup(cfg.claimLeaseSeconds as real, 0.0, cfg.maxAttempts, cfg.durable)
  }

  // ---- The schedule of a visit ----

  function WorkAction(worker: nat, end: WorkEnd): W.Action {
    match end
    case Completed(Emitted) => W.Emit(worker)
    case Completed(_) => W.Drop(worker)
    case Failing(failure) => W.Fail(worker, failure)
  }

  function DeadLetterActions(cfg: Config, v: Visit, worker: nat): seq<W.Action> {
    if v.dlqEmit.Raise? then [W.Crash(worker)]
    else if !cfg.durable then [W.Sink(worker), W.Finish(worker, v.now + cfg.doneTtlSeconds)]
    else if v.dlqPut.Raise? then [W.Sink(worker), W.Crash(worker)]
    else [W.Sink(worker), W.PutRecord(worker)] + [W.Finish(worker, v.now + cfg.doneTtlSeconds)]
  }

  function RetryActions(cfg: Config, v: Visit, s: State, msg: RawMessage, worker: nat): seq<W.Action> {
    if cfg.refreshes && v.refresh.Raise? then [W.Crash(worker)]
    else
      var end := DoWork(cfg, v.second, v.now, s, msg).1;
      [WorkAction(worker, end)] +
      if end.Completed? then [W.Finish(worker, v.now + cfg.doneTtlSeconds)] else DeadLetterActions(cfg, v, worker)
  }

  function FirstActions(cfg: Config, v: Visit, s: State, msg: RawMessage, worker: nat): seq<W.Action> {
    var (worked, end) := DoWork(cfg, v.first, v.now, s, msg);
    [WorkAction(worker, end)] +
    match end
    case Completed(_) => [W.Finish(worker, v.now + cfg.doneTtlSeconds)]
    case Failing(Permanent) => DeadLetterActions(cfg, v, worker)
    case Failing(Auth) => RetryActions(cfg, v, worked, msg, worker)
    case Failing(Transient) =>
      if cfg.maxAttempts <= M.Attempts(s.claims, KeyOf(cfg, msg)) then DeadLetterActions(cfg, v, worker)
      else [W.LetGo(worker)]
  }

  function AttemptActions(cfg: Config, v: Visit, s: State, msg: RawMessage, worker: nat): seq<W.Action> {
    if v.size.Raise? then [W.Crash(worker)]
    else
      var size := SizeOf(v.size.value, msg);
      if size <= 0 || cfg.maxMessageBytes < size then [W.Measure(worker, false)] + DeadLetterActions(cfg, v, worker)
      else [W.Measure(worker, true)] + FirstActions(cfg, v, s, msg, worker)
  }

  /** The clock shows `now`. */
  function VisitActions(cfg: Config, world: World, s: State, msg: RawMessage, worker: nat, now: Time): seq<W.Action> {
    [W.Begin(worker, KeyOf(cfg, msg), now), W.Claim(worker)] +
    if !M.Claimable(s.claims, KeyOf(cfg, msg)) then []
    else [W.CountAttempt(worker)] + AttemptActions(cfg, world(s.visits, msg), V.Entered(cfg, s, msg), msg, worker)
  }

  // ---- One worker's place in the system ----

  /** The system with this worker there, and this store and log. */
  function Placed(sys: W.Sys, worker: nat, pc: W.Pc, store: CM.Machine, log: multiset<(string, W.Outcome)>): W.Sys {
    W.Sys(store, sys.clock, sys.workers[worker := pc], log)
  }

  // One step each.

  lemma CrashStep(setup: W.Setup, sys: W.Sys, worker: nat, pc: W.Pc, store: CM.Machine,
                  log: multiset<(string, W.Outcome)>)
    ensures W.Exec(setup, Placed(sys, worker, pc, store, log), [W.Crash(worker)])
        == Placed(sys, worker, W.Idle, store, log)
  {
    W.Two(setup, Placed(sys, worker, pc, store, log), W.Crash(worker), W.Crash(worker));
    assert W.Moved(Placed(sys, worker, pc, store, log), worker, W.Idle) == Placed(sys, worker, W.Idle, store, log);
  }

  lemma SettledIsPlaced(sys: W.Sys, worker: nat, pc: W.Pc, store: CM.Machine, log: multiset<(string, W.Outcome)>,
                        key: string, since: Time, outcome: W.Outcome)
    ensures W.Settled(Placed(sys, worker, pc, store, log), worker, key, since, outcome)
         == Placed(sys, worker, W.Settling(key, since, outcome), store, log + multiset{(key, outcome)})
  {
    assert W.Moved(Placed(sys, worker, pc, store, log), worker, W.Settling(key, since, outcome))
        == Placed(sys, worker, W.Settling(key, since, outcome), store, log);
  }

  lemma SinkStep(setup: W.Setup, sys: W.Sys, worker: nat, pc: W.Pc, store: CM.Machine,
                 log: multiset<(string, W.Outcome)>)
    requires pc.Sinking?
    ensures W.Exec(setup, Placed(sys, worker, pc, store, log), [W.Sink(worker)])
         == Placed(sys, worker, W.Settling(pc.key, pc.since, W.Sunk), store, log + multiset{(pc.key, W.Sunk)})
  {
    W.Two(setup, Placed(sys, worker, pc, store, log), W.Sink(worker), W.Sink(worker));
    SettledIsPlaced(sys, worker, pc, store, log, pc.key, pc.since, W.Sunk);
  }

  lemma RecordStep(setup: W.Setup, sys: W.Sys, worker: nat, pc: W.Pc, store: CM.Machine,
                   log: multiset<(string, W.Outcome)>)
    requires setup.durable && pc.Settling? && pc.outcome == W.Sunk
    ensures W.Exec(setup, Placed(sys, worker, pc, store, log), [W.PutRecord(worker)])
         == Placed(sys, worker, W.Settling(pc.key, pc.since, W.Recorded), store, log + multiset{(pc.key, W.Recorded)})
  {
    W.Two(setup, Placed(sys, worker, pc, store, log), W.PutRecord(worker), W.PutRecord(worker));
    SettledIsPlaced(sys, worker, pc, store, log, pc.key, pc.since, W.Recorded);
  }

  function OutcomeOf(disposition: Disposition): W.Outcome {
    if disposition == Emitted then W.Sent else W.Filtered
  }

  function AfterWork(setup: W.Setup, sys: W.Sys, worker: nat, pc: W.Pc, store: CM.Machine,
                     log: multiset<(string, W.Outcome)>, end: WorkEnd): W.Sys
    requires pc.Working? || pc.Retrying?
  {
    match end
    case Completed(d) =>
      Placed(sys, worker, W.Settling(pc.key, pc.since, OutcomeOf(d)), store, log + multiset{(pc.key, OutcomeOf(d))})
    case Failing(failure) => Placed(sys, worker, W.AfterFailure(setup, pc, failure), store, log)
  }

  lemma EmitStep(setup: W.Setup, sys: W.Sys, worker: nat, pc: W.Pc, store: CM.Machine,
                 log: multiset<(string, W.Outcome)>)
    requires pc.Working? || pc.Retrying?
    ensures W.Exec(setup, Placed(sys, worker, pc, store, log), [W.Emit(worker)])
         == Placed(sys, worker, W.Settling(pc.key, pc.since, W.Sent), store, log + multiset{(pc.key, W.Sent)})
  {
    W.Two(setup, Placed(sys, worker, pc, store, log), W.Emit(worker), W.Emit(worker));
    SettledIsPlaced(sys, worker, pc, store, log, pc.key, pc.since, W.Sent);
  }

  lemma DropStep(setup: W.Setup, sys: W.Sys, worker: nat, pc: W.Pc, store: CM.Machine,
                 log: multiset<(string, W.Outcome)>)
    requires pc.Working? || pc.Retrying?
    ensures W.Exec(setup, Placed(sys, worker, pc, store, log), [W.Drop(worker)])
         == Placed(sys, worker, W.Settling(pc.key, pc.since, W.Filtered), store, log + multiset{(pc.key, W.Filtered)})
  {
    W.Two(setup, Placed(sys, worker, pc, store, log), W.Drop(worker), W.Drop(worker));
    SettledIsPlaced(sys, worker, pc, store, log, pc.key, pc.since, W.Filtered);
  }

  lemma WorkStep(setup: W.Setup, sys: W.Sys, worker: nat, pc: W.Pc, store: CM.Machine,
                 log: multiset<(string, W.Outcome)>, end: WorkEnd)
    requires pc.Working? || pc.Retrying?
    ensures W.Exec(setup, Placed(sys, worker, pc, store, log), [WorkAction(worker, end)])
         == AfterWork(setup, sys, worker, pc, store, log, end)
  {
    match end {
      case Completed(Emitted) => EmitStep(setup, sys, worker, pc, store, log);
      case Completed(_) => DropStep(setup, sys, worker, pc, store, log);
      case Failing(failure) => FailStep(setup, sys, worker, pc, store, log, failure);
    }
  }

  lemma FinishStep(setup: W.Setup, sys: W.Sys, worker: nat, pc: W.Pc, store: CM.Machine,
                   log: multiset<(string, W.Outcome)>, expiresAt: Time)
    requires W.MayFinish(setup, pc)
    ensures W.Exec(setup, Placed(sys, worker, pc, store, log), [W.Finish(worker, expiresAt)])
         == Placed(sys, worker, W.Idle, CM.MarkedDone(store, pc.key, expiresAt), log)
  {
    var start := Placed(sys, worker, pc, store, log);
    W.Two(setup, start, W.Finish(worker, expiresAt), W.Finish(worker, expiresAt));
    assert W.At(start, worker) == pc;
    assert W.Moved(start, worker, W.Idle) == Placed(sys, worker, W.Idle, store, log);
  }

  lemma FailStep(setup: W.Setup, sys: W.Sys, worker: nat, pc: W.Pc, store: CM.Machine,
                 log: multiset<(string, W.Outcome)>, failure: Failure)
    ensures W.Exec(setup, Placed(sys, worker, pc, store, log), [W.Fail(worker, failure)])
         == Placed(sys, worker, W.AfterFailure(setup, pc, failure), store, log)
  {
    var start := Placed(sys, worker, pc, store, log);
    W.Two(setup, start, W.Fail(worker, failure), W.Fail(worker, failure));
    assert W.At(start, worker) == pc;
    assert W.Moved(start, worker, W.AfterFailure(setup, pc, failure))
        == Placed(sys, worker, W.AfterFailure(setup, pc, failure), store, log);
  }

  lemma MeasureStep(setup: W.Setup, sys: W.Sys, worker: nat, pc: W.Pc, store: CM.Machine,
                    log: multiset<(string, W.Outcome)>, fits: bool)
    requires pc.Sizing?
    ensures W.Exec(setup, Placed(sys, worker, pc, store, log), [W.Measure(worker, fits)])
         == Placed(sys, worker, if fits then W.Working(pc.key, pc.since, pc.attempts)
             else W.Sinking(pc.key, pc.since), store, log)
  {
    var start := Placed(sys, worker, pc, store, log);
    W.Two(setup, start, W.Measure(worker, fits), W.Measure(worker, fits));
    assert W.At(start, worker) == pc;
    var pc' := if fits then W.Working(pc.key, pc.since, pc.attempts) else W.Sinking(pc.key, pc.since);
    assert W.Moved(start, worker, pc') == Placed(sys, worker, pc', store, log);
  }

  lemma LetGoStep(setup: W.Setup, sys: W.Sys, worker: nat, pc: W.Pc, store: CM.Machine,
                  log: multiset<(string, W.Outcome)>)
    requires pc.Releasing?
    ensures W.Exec(setup, Placed(sys, worker, pc, store, log), [W.LetGo(worker)])
         == Placed(sys, worker, W.Idle, CM.Released(store, pc.key), log)
  {
    var start := Placed(sys, worker, pc, store, log);
    W.Two(setup, start, W.LetGo(worker), W.LetGo(worker));
    assert W.At(start, worker) == pc;
    assert W.Moved(start, worker, W.Idle) == Placed(sys, worker, W.Idle, store, log);
  }

  lemma CountStep(setup: W.Setup, sys: W.Sys, worker: nat, pc: W.Pc, store: CM.Machine,
                  log: multiset<(string, W.Outcome)>)
    requires pc.Owning?
    ensures var counted := CM.Attempted(store, pc.key);
            W.Exec(setup, Placed(sys, worker, pc, store, log), [W.CountAttempt(worker)])
            == Placed(sys, worker, W.Sizing(pc.key, pc.since, CM.EntryAt(counted, pc.key).attempts), counted, log)
  {
    var start := Placed(sys, worker, pc, store, log);
    W.Two(setup, start, W.CountAttempt(worker), W.CountAttempt(worker));
    assert W.At(start, worker) == pc;
    var pc' := W.Sizing(pc.key, pc.since, CM.EntryAt(CM.Attempted(store, pc.key), pc.key).attempts);
    assert W.Moved(start, worker, pc') == Placed(sys, worker, pc', store, log);
  }

  lemma {:induction false} ClaimRuns(setup: W.Setup, sys: W.Sys, worker: nat, key: string)
    requires W.At(sys, worker).Idle?
    ensures var won := CM.Claimable(sys.store, key, setup.lease, sys.clock);
            W.Exec(setup, sys, [W.Begin(worker, key, sys.clock), W.Claim(worker)])
            == Placed(sys, worker, if won then W.Owning(key, sys.clock) else W.Idle,
                      CM.Claimed(sys.store, key, setup.lease, sys.clock), sys.log)
  {
    W.Two(setup, sys, W.Begin(worker, key, sys.clock), W.Claim(worker));
    var begun := W.Step(setup, sys, W.Begin(worker, key, sys.clock));
    assert W.At(begun, worker) == W.Claiming(key, sys.clock);
    var won := CM.Claimable(sys.store, key, setup.lease, sys.clock);
    var pc := if won then W.Owning(key, sys.clock) else W.Idle;
    assert W.Moved(begun, worker, pc) == Placed(sys, worker, pc, sys.store, sys.log);
  }

  /** How a dead letter's actions end, from `Sinking`. */
  function AfterDeadLetter(cfg: Config, v: Visit, sys: W.Sys, worker: nat, key: string, store: CM.Machine,
                           log: multiset<(string, W.Outcome)>): W.Sys {
    var sunk, recorded := log + multiset{(key, W.Sunk)}, log + multiset{(key, W.Sunk)} + multiset{(key, W.Recorded)};
    var done := CM.MarkedDone(store, key, v.now + cfg.doneTtlSeconds);
    if v.dlqEmit.Raise? then Placed(sys, worker, W.Idle, store, log)
    else if !cfg.durable then Placed(sys, worker, W.Idle, done, sunk)
    else if v.dlqPut.Raise? then Placed(sys, worker, W.Idle, store, sunk)
    else Placed(sys, worker, W.Idle, done, recorded)
  }

  lemma {:induction false} DeadLetterRuns(cfg: Config, v: Visit, sys: W.Sys, worker: nat, key: string, since: Time,
                                          store: CM.Machine, log: multiset<(string, W.Outcome)>)
    ensures W.Exec(SetupOf(cfg), Placed(sys, worker, W.Sinking(key, since), store, log),
                   DeadLetterActions(cfg, v, worker))
         == AfterDeadLetter(cfg, v, sys, worker, key, store, log)
  {
    var setup, start := SetupOf(cfg), Placed(sys, worker, W.Sinking(key, since), store, log);
    var finish, sunk := [W.Finish(worker, v.now + cfg.doneTtlSeconds)], log + multiset{(key, W.Sunk)};
    if v.dlqEmit.Raise? {
      CrashStep(setup, sys, worker, W.Sinking(key, since), store, log);
    } else {
      SinkStep(setup, sys, worker, W.Sinking(key, since), store, log);
      var rest := DeadLetterActions(cfg, v, worker)[1..];
      assert DeadLetterActions(cfg, v, worker) == [W.Sink(worker)] + rest;
      W.ExecJoins(setup, start, [W.Sink(worker)], rest);
      var pc := W.Settling(key, since, W.Sunk);
      if !cfg.durable {
        assert rest == finish;
        FinishStep(setup, sys, worker, pc, store, sunk, v.now + cfg.doneTtlSeconds);
      } else if v.dlqPut.Raise? {
        assert rest == [W.Crash(worker)];
        CrashStep(setup, sys, worker, pc, store, sunk);
      } else {
        assert rest == [W.PutRecord(worker)] + finish;
        RecordStep(setup, sys, worker, pc, store, sunk);
        W.ExecJoins(setup, Placed(sys, worker, pc, store, sunk), [W.PutRecord(worker)], finish);
        FinishStep(setup, sys, worker, W.Settling(key, since, W.Recorded), store, sunk + multiset{(key, W.Recorded)},
                   v.now + cfg.doneTtlSeconds);
      }
    }
  }

  // ---- What a visit does, on both sides ----

  function ClaimsAfter(cfg: Config, v: Visit, claims: M.Claims, key: string, step: Step): M.Claims {
    match step
    case Terminal(_) => M.Finished(claims, key, v.now + cfg.doneTtlSeconds)
    case Pending => M.Released(claims, key)
    case Escaped => claims
  }

  function StoreAfter(cfg: Config, v: Visit, store: CM.Machine, key: string, step: Step): CM.Machine {
    match step
    case Terminal(_) => CM.MarkedDone(store, key, v.now + cfg.doneTtlSeconds)
    case Pending => CM.Released(store, key)
    case Escaped => store
  }

  /** The outcomes a step stands for; an escape may have come after the sink. */
  function OutcomesOf(cfg: Config, key: string, step: Step, sunk: bool): multiset<(string, W.Outcome)> {
    match step
    case Terminal(Emitted) => multiset{(key, W.Sent)}
    case Terminal(Dropped) => multiset{(key, W.Filtered)}
    case Terminal(Duplicate) => multiset{}
    case Terminal(DeadLettered) =>
      if cfg.durable then multiset{(key, W.Sunk)} + multiset{(key, W.Recorded)} else multiset{(key, W.Sunk)}
    case Pending => multiset{}
    case Escaped => if sunk then multiset{(key, W.Sunk)} else multiset{}
  }

  /** Was a dead letter sunk between these states? */
  predicate SunkBetween(s: State, t: State) {
    |s.dlqEvents| < |t.dlqEvents|
  }

  function EndOf(cfg: Config, v: Visit, sys: W.Sys, worker: nat, key: string, store: CM.Machine,
                 log: multiset<(string, W.Outcome)>, step: Step, sunk: bool): W.Sys {
    Placed(sys, worker, W.Idle, StoreAfter(cfg, v, store, key, step), log + OutcomesOf(cfg, key, step, sunk))
  }

  lemma WorkClaims(cfg: Config, work: Work, now: Time, s: State, msg: RawMessage)
    ensures var (t, end) := DoWork(cfg, work, now, s, msg);
            && t.dlqEvents == s.dlqEvents
            && (end.Completed? ==> end.disposition in {Emitted, Dropped}
                                   && t.claims == M.Finished(s.claims, KeyOf(cfg, msg), now + cfg.doneTtlSeconds))
            && (end.Failing? ==> t.claims == s.claims)
  {
  }

  lemma DeadLetterClaims(cfg: Config, v: Visit, s: State, msg: RawMessage, reason: Reason, attempts: nat)
    ensures var (t, step) := DeadLettering(cfg, v, s, msg, reason, attempts);
            t.claims == ClaimsAfter(cfg, v, s.claims, KeyOf(cfg, msg), step)
            && step == (if v.dlqEmit.Raise?
                        || (cfg.durable && v.dlqPut.Raise?) then Escaped else Terminal(DeadLettered))
            && SunkBetween(s, t) == v.dlqEmit.Ok?
  {
  }

  lemma DeadLetterEnds(cfg: Config, v: Visit, sys: W.Sys, worker: nat, key: string, store: CM.Machine,
                       log: multiset<(string, W.Outcome)>)
    ensures var step := if v.dlqEmit.Raise?
      || (cfg.durable && v.dlqPut.Raise?) then Escaped else Terminal(DeadLettered);
            AfterDeadLetter(cfg, v, sys, worker, key, store, log)
                == EndOf(cfg, v, sys, worker, key, store, log, step, v.dlqEmit.Ok?)
  {
    assert log + multiset{} == log;
    assert log + multiset{(key, W.Sunk)} + multiset{(key, W.Recorded)}
        == log + (multiset{(key, W.Sunk)} + multiset{(key, W.Recorded)});
  }

  /** Any way into the dead-letter path, then all of it. */
  lemma {:induction false} DeadLetterPath(cfg: Config, v: Visit, s: State, msg: RawMessage, reason: Reason,
                                          attempts: nat,
                                          sys: W.Sys, worker: nat, start: W.Sys, enter: seq<W.Action>, since: Time,
                                          store: CM.Machine, log: multiset<(string, W.Outcome)>)
    requires W.Exec(SetupOf(cfg), start, enter) == Placed(sys, worker, W.Sinking(KeyOf(cfg, msg), since), store, log)
    ensures var (t, step) := DeadLettering(cfg, v, s, msg, reason, attempts);
            Follows(cfg, v, s, t, msg, step, sys, worker, start, enter + DeadLetterActions(cfg, v, worker), store, log)
  {
    var key := KeyOf(cfg, msg);
    W.ExecJoins(SetupOf(cfg), start, enter, DeadLetterActions(cfg, v, worker));
    DeadLetterRuns(cfg, v, sys, worker, key, since, store, log);
    DeadLetterEnds(cfg, v, sys, worker, key, store, log);
    DeadLetterClaims(cfg, v, s, msg, reason, attempts);
  }

  /** From `start`, the actions end as the step says, and the claims moved accordingly. */
  ghost predicate Follows(cfg: Config, v: Visit, s: State, t: State, msg: RawMessage, step: Step, sys: W.Sys,
                          worker: nat,
                          start: W.Sys, actions: seq<W.Action>, store: CM.Machine, log: multiset<(string, W.Outcome)>) {
    && W.Exec(SetupOf(cfg), start, actions)
        == EndOf(cfg, v, sys, worker, KeyOf(cfg, msg), store, log, step, SunkBetween(s, t))
    && t.claims == ClaimsAfter(cfg, v, s.claims, KeyOf(cfg, msg), step)
  }

  /** Completed work, from the outcome to `mark_done`. */
  lemma {:induction false} CompletedRuns(cfg: Config, v: Visit, sys: W.Sys, worker: nat, pc: W.Pc, store: CM.Machine,
                                         log: multiset<(string, W.Outcome)>, d: Disposition)
    requires (pc.Working? || pc.Retrying?) && d in {Emitted, Dropped}
    ensures W.Exec(SetupOf(cfg), Placed(sys, worker, pc, store, log),
                   [WorkAction(worker, Completed(d))] + [W.Finish(worker, v.now + cfg.doneTtlSeconds)])
         == EndOf(cfg, v, sys, worker, pc.key, store, log, Terminal(d), false)
  {
    var setup, at := SetupOf(cfg), W.Settling(pc.key, pc.since, OutcomeOf(d));
    WorkStep(setup, sys, worker, pc, store, log, Completed(d));
    W.ExecJoins(setup, Placed(sys, worker, pc, store, log), [WorkAction(worker, Completed(d))],
                [W.Finish(worker, v.now + cfg.doneTtlSeconds)]);
    FinishStep(setup, sys, worker, at, store, log + multiset{(pc.key, OutcomeOf(d))}, v.now + cfg.doneTtlSeconds);
  }

  lemma {:induction false} CrashFollows(cfg: Config, v: Visit, s: State, msg: RawMessage, sys: W.Sys, worker: nat,
                                        pc: W.Pc,
                                        store: CM.Machine, log: multiset<(string, W.Outcome)>)
    ensures Follows(cfg, v, s, s, msg, Escaped, sys, worker, Placed(sys, worker, pc, store, log), [W.Crash(worker)],
                    store, log)
  {
    CrashStep(SetupOf(cfg), sys, worker, pc, store, log);
    assert log + multiset{} == log;
  }

  lemma {:induction false} CompletedFollows(cfg: Config, v: Visit, work: Work, s: State, msg: RawMessage, sys: W.Sys,
                                            worker: nat,
                                            pc: W.Pc, store: CM.Machine, log: multiset<(string, W.Outcome)>)
    requires (pc.Working? || pc.Retrying?) && pc.key == KeyOf(cfg, msg)
    requires DoWork(cfg, work, v.now, s, msg).1.Completed?
    ensures var (t, end) := DoWork(cfg, work, v.now, s, msg);
            Follows(cfg, v, s, t, msg, Terminal(end.disposition), sys, worker, Placed(sys, worker, pc, store, log),
                    [WorkAction(worker, end)] + [W.Finish(worker, v.now + cfg.doneTtlSeconds)], store, log)
  {
    WorkClaims(cfg, work, v.now, s, msg);
    CompletedRuns(cfg, v, sys, worker, pc, store, log, DoWork(cfg, work, v.now, s, msg).1.disposition);
  }

  lemma SameBefore(cfg: Config, v: Visit, s: State, s': State, t: State, msg: RawMessage, step: Step, sys: W.Sys,
                   worker: nat,
                   start: W.Sys, actions: seq<W.Action>, store: CM.Machine, log: multiset<(string, W.Outcome)>)
    requires s.claims == s'.claims && s.dlqEvents == s'.dlqEvents
    requires Follows(cfg, v, s', t, msg, step, sys, worker, start, actions, store, log)
    ensures Follows(cfg, v, s, t, msg, step, sys, worker, start, actions, store, log)
  {
  }

  lemma {:induction false} FailedRetryFollows(cfg: Config, v: Visit, s: State, worked: State, msg: RawMessage,
                                              end: WorkEnd, sys: W.Sys, worker: nat, since: Time, store: CM.Machine,
                                              log: multiset<(string, W.Outcome)>)
    requires end.Failing? && worked.claims == s.claims && worked.dlqEvents == s.dlqEvents
    ensures var (t, step) := DeadLettering(cfg, v, worked, msg, AuthRetryFailed(Auth, end.failure), 1);
            Follows(cfg, v, s, t, msg, step, sys, worker,
                    Placed(sys, worker, W.Retrying(KeyOf(cfg, msg), since), store, log),
                    [WorkAction(worker, end)] + DeadLetterActions(cfg, v, worker), store, log)
  {
    var pc, reason := W.Retrying(KeyOf(cfg, msg), since), AuthRetryFailed(Auth, end.failure);
    var start := Placed(sys, worker, pc, store, log);
    WorkStep(SetupOf(cfg), sys, worker, pc, store, log, end);
    DeadLetterPath(cfg, v, worked, msg, reason, 1, sys, worker, start, [WorkAction(worker, end)], since, store, log);
    var (t, step) := DeadLettering(cfg, v, worked, msg, reason, 1);
    SameBefore(cfg, v, s, worked, t, msg, step, sys, worker, start,
               [WorkAction(worker, end)] + DeadLetterActions(cfg, v, worker), store, log);
  }

  lemma {:induction false} RetryFollows(cfg: Config, v: Visit, s: State, msg: RawMessage, sys: W.Sys, worker: nat,
                                        since: Time,
                                        store: CM.Machine, log: multiset<(string, W.Outcome)>)
    ensures var (t, step) := RefreshAndRetryOnce(cfg, v, s, msg);
            Follows(cfg, v, s, t, msg, step, sys, worker,
                    Placed(sys, worker, W.Retrying(KeyOf(cfg, msg), since), store, log),
                    RetryActions(cfg, v, s, msg, worker), store, log)
  {
    var pc := W.Retrying(KeyOf(cfg, msg), since);
    if cfg.refreshes && v.refresh.Raise? {
      CrashFollows(cfg, v, s, msg, sys, worker, pc, store, log);
    } else {
      var (worked, end) := DoWork(cfg, v.second, v.now, s, msg);
      WorkClaims(cfg, v.second, v.now, s, msg);
      if end.Completed? {
        CompletedFollows(cfg, v, v.second, s, msg, sys, worker, pc, store, log);
      } else {
        FailedRetryFollows(cfg, v, s, worked, msg, end, sys, worker, since, store, log);
      }
    }
  }

  lemma {:induction false} Preceded(cfg: Config, v: Visit, s: State, t: State, msg: RawMessage, step: Step,
                                    sys: W.Sys, worker: nat,
                                    start: W.Sys, enter: seq<W.Action>, actions: seq<W.Action>, store: CM.Machine,
                                    log: multiset<(string, W.Outcome)>)
    requires Follows(cfg, v, s, t, msg, step, sys, worker, W.Exec(SetupOf(cfg), start, enter), actions, store, log)
    ensures Follows(cfg, v, s, t, msg, step, sys, worker, start, enter + actions, store, log)
  {
    W.ExecJoins(SetupOf(cfg), start, enter, actions);
  }

  lemma {:induction false} LetGoFollows(cfg: Config, v: Visit, s: State, msg: RawMessage, sys: W.Sys, worker: nat,
                                        since: Time,
                                        store: CM.Machine, log: multiset<(string, W.Outcome)>)
    ensures var t := s.(claims := M.Released(s.claims, KeyOf(cfg, msg)));
            Follows(cfg, v, s, t, msg, Pending, sys, worker,
                    Placed(sys, worker, W.Releasing(KeyOf(cfg, msg), since), store, log),
                    [W.LetGo(worker)], store, log)
  {
    LetGoStep(SetupOf(cfg), sys, worker, W.Releasing(KeyOf(cfg, msg), since), store, log);
    assert log + multiset{} == log;
  }

  /** The first work body and all that may come of it. */
  function FirstWork(cfg: Config, v: Visit, s: State, msg: RawMessage): (State, Step) {
    var (worked, end) := DoWork(cfg, v.first, v.now, s, msg);
    match end
    case Completed(d) => (worked, Terminal(d))
    case Failing(Permanent) => DeadLettering(cfg, v, worked, msg, Failed(Permanent),
                                             M.Attempts(s.claims, KeyOf(cfg, msg)))
    case Failing(Auth) => RefreshAndRetryOnce(cfg, v, worked, msg)
    case Failing(Transient) => RetryOrDeadLetter(cfg, v, worked, msg, M.Attempts(s.claims, KeyOf(cfg, msg)))
  }

  lemma {:induction false} FailedWorkFollows(cfg: Config, v: Visit, s: State, msg: RawMessage, sys: W.Sys,
                                             worker: nat, since: Time,
                                             store: CM.Machine, log: multiset<(string, W.Outcome)>)
    requires DoWork(cfg, v.first, v.now, s, msg).1.Failing?
    ensures var (t, step) := FirstWork(cfg, v, s, msg);
            var pc := W.Working(KeyOf(cfg, msg), since, M.Attempts(s.claims, KeyOf(cfg, msg)));
            Follows(cfg, v, s, t, msg, step, sys, worker, Placed(sys, worker, pc, store, log),
                    FirstActions(cfg, v, s, msg, worker), store, log)
  {
    var key, attempts := KeyOf(cfg, msg), M.Attempts(s.claims, KeyOf(cfg, msg));
    var (worked, end) := DoWork(cfg, v.first, v.now, s, msg);
    var (t, step) := FirstWork(cfg, v, s, msg);
    var start, enter := Placed(sys, worker, W.Working(key, since, attempts), store, log), [WorkAction(worker, end)];
    WorkClaims(cfg, v.first, v.now, s, msg);
    WorkStep(SetupOf(cfg), sys, worker, W.Working(key, since, attempts), store, log, end);
    match end.failure {
      case Permanent =>
        DeadLetterPath(cfg, v, worked, msg, Failed(Permanent), attempts, sys, worker, start, enter, since, store, log);
      case Auth =>
        RetryFollows(cfg, v, worked, msg, sys, worker, since, store, log);
        Preceded(cfg, v, worked, t, msg, step, sys, worker, start, enter, RetryActions(cfg, v, worked, msg, worker),
                 store, log);
      case Transient =>
        if cfg.maxAttempts <= attempts {
          DeadLetterPath(cfg, v, worked, msg, Failed(Transient), attempts, sys, worker, start, enter, since, store,
                         log);
        } else {
          LetGoFollows(cfg, v, worked, msg, sys, worker, since, store, log);
          Preceded(cfg, v, worked, t, msg, step, sys, worker, start, enter, [W.LetGo(worker)], store, log);
        }
    }
    SameBefore(cfg, v, s, worked, t, msg, step, sys, worker, start, FirstActions(cfg, v, s, msg, worker), store, log);
  }

  lemma {:induction false} FirstWorkFollows(cfg: Config, v: Visit, s: State, msg: RawMessage, sys: W.Sys, worker: nat,
                                            since: Time,
                                            store: CM.Machine, log: multiset<(string, W.Outcome)>)
    ensures var (t, step) := FirstWork(cfg, v, s, msg);
            var pc := W.Working(KeyOf(cfg, msg), since, M.Attempts(s.claims, KeyOf(cfg, msg)));
            Follows(cfg, v, s, t, msg, step, sys, worker, Placed(sys, worker, pc, store, log),
                    FirstActions(cfg, v, s, msg, worker), store, log)
  {
    if DoWork(cfg, v.first, v.now, s, msg).1.Completed? {
      var pc := W.Working(KeyOf(cfg, msg), since, M.Attempts(s.claims, KeyOf(cfg, msg)));
      CompletedFollows(cfg, v, v.first, s, msg, sys, worker, pc, store, log);
    } else {
      FailedWorkFollows(cfg, v, s, msg, sys, worker, since, store, log);
    }
  }

  lemma {:induction false} AttemptFollows(cfg: Config, v: Visit, s: State, msg: RawMessage, sys: W.Sys, worker: nat,
                                          since: Time,
                                          store: CM.Machine, log: multiset<(string, W.Outcome)>)
    ensures var (t, step) := Attempt(cfg, v, s, msg);
            var pc := W.Sizing(KeyOf(cfg, msg), since, M.Attempts(s.claims, KeyOf(cfg, msg)));
            Follows(cfg, v, s, t, msg, step, sys, worker, Placed(sys, worker, pc, store, log),
                    AttemptActions(cfg, v, s, msg, worker), store, log)
  {
    var attempts := M.Attempts(s.claims, KeyOf(cfg, msg));
    var pc := W.Sizing(KeyOf(cfg, msg), since, attempts);
    var start := Placed(sys, worker, pc, store, log);
    if v.size.Raise? {
      CrashFollows(cfg, v, s, msg, sys, worker, pc, store, log);
    } else {
      var size := SizeOf(v.size.value, msg);
      if size <= 0 || cfg.maxMessageBytes < size {
        var reason := if size <= 0 then SizeUnknown(size) else Oversized(size, cfg.maxMessageBytes);
        MeasureStep(SetupOf(cfg), sys, worker, pc, store, log, false);
        DeadLetterPath(cfg, v, s, msg, reason, attempts, sys, worker, start, [W.Measure(worker, false)], since, store,
                       log);
      } else {
        var (t, step) := FirstWork(cfg, v, s, msg);
        assert (t, step) == Attempt(cfg, v, s, msg);
        MeasureStep(SetupOf(cfg), sys, worker, pc, store, log, true);
        FirstWorkFollows(cfg, v, s, msg, sys, worker, since, store, log);
        Preceded(cfg, v, s, t, msg, step, sys, worker, start, [W.Measure(worker, true)],
                 FirstActions(cfg, v, s, msg, worker), store, log);
      }
    }
  }

  // ---- Whole visits ----

  /** What a schedule that stands for a visit leaves: related claims, the worker idle, every
      other worker where it was, and the step's outcomes on the log. */
  ghost predicate StandsFor(cfg: Config, s: State, t: State, key: string, step: Step, sys: W.Sys, end: W.Sys,
                            worker: nat) {
    && Related(t.claims, end.store)
    && W.At(end, worker).Idle? && end.clock == sys.clock
    && (forall other | other != worker :: W.At(end, other) == W.At(sys, other))
    && end.log == sys.log + OutcomesOf(cfg, key, step, SunkBetween(s, t))
    && Stamped(sys.store, end.store, sys.clock)
  }

  /** Every claim held afterwards was held before, or was won just now. */
  ghost predicate Stamped(before: CM.Machine, after: CM.Machine, now: Time) {
    forall k | CM.EntryAt(after, k).phase.Held? ::
      CM.EntryAt(after, k).phase == CM.EntryAt(before, k).phase || CM.EntryAt(after, k).phase.since == now
  }

  lemma {:induction false} EndStaysRelated(cfg: Config, v: Visit, claims: M.Claims, store: CM.Machine, key: string,
                                           step: Step)
    requires Related(claims, store)
    ensures Related(ClaimsAfter(cfg, v, claims, key, step), StoreAfter(cfg, v, store, key, step))
  {
    match step {
      case Terminal(_) => AgreeExactly(claims, store, CM.MarkDone(key, cfg.doneTtlSeconds, v.now));
      case Pending => AgreeExactly(claims, store, CM.Release(key));
      case Escaped =>
    }
  }

  lemma {:induction false} DuplicateIsASchedule(cfg: Config, world: World, s: State, msg: RawMessage, sys: W.Sys,
                                                worker: nat)
    requires Related(s.claims, sys.store) && W.At(sys, worker).Idle?
    requires !Lapses(sys.store, CM.TryClaim(KeyOf(cfg, msg), cfg.claimLeaseSeconds as real, sys.clock))
    requires !M.Claimable(s.claims, KeyOf(cfg, msg))
    ensures var (t, step) := Process(cfg, world, s, msg);
            StandsFor(cfg, s, t, KeyOf(cfg, msg), step, sys,
                      W.Exec(SetupOf(cfg), sys, VisitActions(cfg, world, s, msg, worker, sys.clock)), worker)
  {
    AgreeExactly(s.claims, sys.store, CM.TryClaim(KeyOf(cfg, msg), cfg.claimLeaseSeconds as real, sys.clock));
    ClaimRuns(SetupOf(cfg), sys, worker, KeyOf(cfg, msg));
    assert VisitActions(cfg, world, s, msg, worker, sys.clock)
        == [W.Begin(worker, KeyOf(cfg, msg), sys.clock), W.Claim(worker)];
    assert sys.log + multiset{} == sys.log;
  }

  /** Winning the claim and counting the attempt, on both sides. */
  lemma {:induction false} EntryIsASchedule(cfg: Config, s: State, msg: RawMessage, sys: W.Sys, worker: nat)
    requires Related(s.claims, sys.store) && W.At(sys, worker).Idle?
    requires !Lapses(sys.store, CM.TryClaim(KeyOf(cfg, msg), cfg.claimLeaseSeconds as real, sys.clock))
    requires M.Claimable(s.claims, KeyOf(cfg, msg))
    ensures var key, setup, inside := KeyOf(cfg, msg), SetupOf(cfg), V.Entered(cfg, s, msg);
            var store := CM.Attempted(CM.Claimed(sys.store, key, setup.lease, sys.clock), key);
            && Related(inside.claims, store)
            && W.Exec(setup, sys, [W.Begin(worker, key, sys.clock), W.Claim(worker)] + [W.CountAttempt(worker)])
               == Placed(sys, worker, W.Sizing(key, sys.clock, M.Attempts(inside.claims, key)), store, sys.log)
  {
    var key, setup := KeyOf(cfg, msg), SetupOf(cfg);
    var claimed := CM.Claimed(sys.store, key, setup.lease, sys.clock);
    AgreeExactly(s.claims, sys.store, CM.TryClaim(key, setup.lease, sys.clock));
    AgreeExactly(M.Claimed(s.claims, key), claimed, CM.RecordAttempt(key));
    ClaimRuns(setup, sys, worker, key);
    CountStep(setup, sys, worker, W.Owning(key, sys.clock), claimed, sys.log);
    W.ExecJoins(setup, sys, [W.Begin(worker, key, sys.clock), W.Claim(worker)], [W.CountAttempt(worker)]);
  }

  lemma PlacedStandsFor(cfg: Config, v: Visit, s: State, t: State, key: string, step: Step, sys: W.Sys,
                        store: CM.Machine, worker: nat)
    requires Related(t.claims, StoreAfter(cfg, v, store, key, step)) && Stamped(sys.store, store, sys.clock)
    ensures StandsFor(cfg, s, t, key, step, sys,
                      EndOf(cfg, v, sys, worker, key, store, sys.log, step, SunkBetween(s, t)), worker)
  {
  }

  lemma FollowsStandsFor(cfg: Config, v: Visit, s: State, inside: State, t: State, msg: RawMessage, step: Step,
                         sys: W.Sys,
                         worker: nat, actions: seq<W.Action>, store: CM.Machine)
    requires Related(inside.claims, store) && inside.dlqEvents == s.dlqEvents && Stamped(sys.store, store, sys.clock)
    requires Follows(cfg, v, inside, t, msg, step, sys, worker, sys, actions, store, sys.log)
    ensures StandsFor(cfg, s, t, KeyOf(cfg, msg), step, sys, W.Exec(SetupOf(cfg), sys, actions), worker)
  {
    EndStaysRelated(cfg, v, inside.claims, store, KeyOf(cfg, msg), step);
    PlacedStandsFor(cfg, v, s, t, KeyOf(cfg, msg), step, sys, store, worker);
  }

  /** The store once the visit's claim is won and its attempt counted. */
  function EnteredStore(cfg: Config, sys: W.Sys, key: string): CM.Machine {
    CM.Attempted(CM.Claimed(sys.store, key, cfg.claimLeaseSeconds as real, sys.clock), key)
  }

  lemma VisitBegins(cfg: Config, world: World, s: State, msg: RawMessage, worker: nat, now: Time)
    requires M.Claimable(s.claims, KeyOf(cfg, msg))
    ensures VisitActions(cfg, world, s, msg, worker, now)
         == [W.Begin(worker, KeyOf(cfg, msg), now), W.Claim(worker)] + [W.CountAttempt(worker)]
            + AttemptActions(cfg, world(s.visits, msg), V.Entered(cfg, s, msg), msg, worker)
  {
  }

  lemma {:induction false} WonVisitFollows(cfg: Config, world: World, s: State, msg: RawMessage, sys: W.Sys,
                                           worker: nat)
    requires Related(s.claims, sys.store) && W.At(sys, worker).Idle?
    requires !Lapses(sys.store, CM.TryClaim(KeyOf(cfg, msg), cfg.claimLeaseSeconds as real, sys.clock))
    requires M.Claimable(s.claims, KeyOf(cfg, msg))
    ensures var inside, store := V.Entered(cfg, s, msg), EnteredStore(cfg, sys, KeyOf(cfg, msg));
            var (t, step) := Attempt(cfg, world(s.visits, msg), inside, msg);
            Related(inside.claims, store)
            && Follows(cfg, world(s.visits, msg), inside, t, msg, step, sys, worker, sys,
                       VisitActions(cfg, world, s, msg, worker, sys.clock), store, sys.log)
  {
    var key, v, inside := KeyOf(cfg, msg), world(s.visits, msg), V.Entered(cfg, s, msg);
    var store, rest := EnteredStore(cfg, sys, key), AttemptActions(cfg, v, inside, msg, worker);
    var enter := [W.Begin(worker, key, sys.clock), W.Claim(worker)] + [W.CountAttempt(worker)];
    var (t, step) := Attempt(cfg, v, inside, msg);
    EntryIsASchedule(cfg, s, msg, sys, worker);
    AttemptFollows(cfg, v, inside, msg, sys, worker, sys.clock, store, sys.log);
    Preceded(cfg, v, inside, t, msg, step, sys, worker, sys, enter, rest, store, sys.log);
    VisitBegins(cfg, world, s, msg, worker, sys.clock);
  }

  /** Every visit is a schedule: as long as no lease lapses on the visited key, the worker
      machine follows the pipeline whatever is answered, escapes included. */
  lemma {:induction false} VisitIsASchedule(cfg: Config, world: World, s: State, msg: RawMessage, sys: W.Sys,
                                            worker: nat)
    requires Related(s.claims, sys.store) && W.At(sys, worker).Idle?
    requires !Lapses(sys.store, CM.TryClaim(KeyOf(cfg, msg), cfg.claimLeaseSeconds as real, sys.clock))
    ensures var (t, step) := Process(cfg, world, s, msg);
            StandsFor(cfg, s, t, KeyOf(cfg, msg), step, sys,
                      W.Exec(SetupOf(cfg), sys, VisitActions(cfg, world, s, msg, worker, sys.clock)), worker)
  {
    if M.Claimable(s.claims, KeyOf(cfg, msg)) {
      var v, inside := world(s.visits, msg), V.Entered(cfg, s, msg);
      var (t, step) := Attempt(cfg, v, inside, msg);
      assert Process(cfg, world, s, msg) == (t, step);
      WonVisitFollows(cfg, world, s, msg, sys, worker);
      FollowsStandsFor(cfg, v, s, inside, t, msg, step, sys, worker,
                       VisitActions(cfg, world, s, msg, worker, sys.clock),
                       EnteredStore(cfg, sys, KeyOf(cfg, msg)));
    } else {
      DuplicateIsASchedule(cfg, world, s, msg, sys, worker);
    }
  }
}
