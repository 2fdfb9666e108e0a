/** Whole histories of runs are schedules too, so what holds under every interleaving holds
    of them: nothing is lost. */
module RunSchedules {
  import opened Models
  import opened Observability
  import opened Delivery
  import M = MemoryStores
  import CM = ClaimMachine
  import opened DedupeRefinement
  import W = Workers
  import V = Visits
  import opened Schedules
  import opened Scenarios
  import opened Outcomes
  import Identity

  // ---- What is sunk ----

  function SinkKey(event: DlqEvent): string {
    Identity.IdempotencyKey(event.tenant, event.orderingKey, event.providerMessageId)
  }

  /** At most this key's dead letter was sunk; surely so if it was dead-lettered. */
  predicate Sinks(s: State, t: State, key: string, step: Step) {
    || (t.dlqEvents == s.dlqEvents && step != Terminal(DeadLettered))
    || (|t.dlqEvents| == |s.dlqEvents| + 1 && t.dlqEvents == s.dlqEvents + [t.dlqEvents[|s.dlqEvents|]]
        && SinkKey(t.dlqEvents[|s.dlqEvents|]) == key)
  }

  lemma DeadLetteringSinks(cfg: Config, v: Visit, s: State, msg: RawMessage, reason: Reason, attempts: nat)
    ensures var (t, step) := DeadLettering(cfg, v, s, msg, reason, attempts);
            Sinks(s, t, KeyOf(cfg, msg), step)
  {
  }

  lemma {:induction false} RefreshSinks(cfg: Config, v: Visit, s: State, msg: RawMessage)
    ensures var (t, step) := RefreshAndRetryOnce(cfg, v, s, msg);
            Sinks(s, t, KeyOf(cfg, msg), step)
  {
    if !(cfg.refreshes && v.refresh.Raise?) {
      var (worked, end) := DoWork(cfg, v.second, v.now, s, msg);
      WorkClaims(cfg, v.second, v.now, s, msg);
      if end.Failing? {
        DeadLetteringSinks(cfg, v, worked, msg, AuthRetryFailed(Auth, end.failure), 1);
      }
    }
  }

  lemma {:induction false} AttemptSinks(cfg: Config, v: Visit, s: State, msg: RawMessage)
    ensures var (t, step) := Attempt(cfg, v, s, msg);
            Sinks(s, t, KeyOf(cfg, msg), step)
  {
    var attempts := M.Attempts(s.claims, KeyOf(cfg, msg));
    if v.size.Ok? {
      var size := SizeOf(v.size.value, msg);
      if size <= 0 {
        DeadLetteringSinks(cfg, v, s, msg, SizeUnknown(size), attempts);
      } else if cfg.maxMessageBytes < size {
        DeadLetteringSinks(cfg, v, s, msg, Oversized(size, cfg.maxMessageBytes), attempts);
      } else {
        var (worked, end) := DoWork(cfg, v.first, v.now, s, msg);
        WorkClaims(cfg, v.first, v.now, s, msg);
        match end
        case Completed(_) =>
        case Failing(Permanent) => DeadLetteringSinks(cfg, v, worked, msg, Failed(Permanent), attempts);
        case Failing(Auth) => RefreshSinks(cfg, v, worked, msg);
        case Failing(Transient) => DeadLetteringSinks(cfg, v, worked, msg, Failed(Transient), attempts);
      }
    }
  }

  lemma {:induction false} ProcessSinks(cfg: Config, world: World, s: State, msg: RawMessage)
    ensures var (t, step) := Process(cfg, world, s, msg);
            Sinks(s, t, KeyOf(cfg, msg), step)
  {
    if M.Claimable(s.claims, KeyOf(cfg, msg)) {
      AttemptSinks(cfg, world(s.visits, msg), V.Entered(cfg, s, msg), msg);
      assert Process(cfg, world, s, msg) == Attempt(cfg, world(s.visits, msg), V.Entered(cfg, s, msg), msg);
    }
  }

  // ---- The log of outcomes against the pipeline's own logs ----

  /** What the pipeline's logs show for an outcome. */
  ghost predicate Shown(s: State, key: string, outcome: W.Outcome) {
    match outcome
    case Sent => exists e :: e in s.emitted && e.idempotencyKey == key
    case Filtered => exists trace :: trace in s.observed && trace.key == key && trace.disposition == Dropped
    case Sunk => exists e :: e in s.dlqEvents && SinkKey(e) == key
    case Recorded => M.Holds(s.dead, key)
  }

  ghost predicate AllShown(log: multiset<(string, W.Outcome)>, s: State) {
    forall key, outcome | (key, outcome) in log :: Shown(s, key, outcome)
  }

  /** Logs only grow, and durable records stay under their ids. */
  ghost predicate LogsGrowOn(s: State, t: State) {
    && (forall e | e in s.emitted :: e in t.emitted)
    && (forall trace | trace in s.observed :: trace in t.observed)
    && (forall e | e in s.dlqEvents :: e in t.dlqEvents)
    && (forall key | M.Holds(s.dead, key) :: M.Holds(t.dead, key))
  }

  lemma ShownStays(s: State, t: State, key: string, outcome: W.Outcome)
    requires Shown(s, key, outcome) && LogsGrowOn(s, t)
    ensures Shown(t, key, outcome)
  {
  }

  lemma {:induction false} VisitGrows(cfg: Config, s: State, msg: RawMessage, t: State, step: Step)
    requires V.Visited(cfg, s, msg, t, step) && Sinks(s, t, KeyOf(cfg, msg), step)
    ensures LogsGrowOn(s, t)
  {
    var traces :| V.TracesOf(KeyOf(cfg, msg), step, traces) && t.observed == s.observed + traces;
    if step == Terminal(DeadLettered) && cfg.durable {
      var reason, attempts, now :| t.dead == M.Put(s.dead, RecordFor(cfg, msg, reason, attempts, now));
      M.PutStores(s.dead, RecordFor(cfg, msg, reason, attempts, now));
    }
  }

  /** Every outcome of a visit shows in the logs after it. */
  lemma {:induction false} VisitShows(cfg: Config, s: State, msg: RawMessage, t: State, step: Step, outcome: W.Outcome)
    requires V.Visited(cfg, s, msg, t, step) && Sinks(s, t, KeyOf(cfg, msg), step)
    requires (KeyOf(cfg, msg), outcome) in OutcomesOf(cfg, KeyOf(cfg, msg), step, SunkBetween(s, t))
    ensures Shown(t, KeyOf(cfg, msg), outcome)
  {
    var key := KeyOf(cfg, msg);
    var traces :| V.TracesOf(key, step, traces) && t.observed == s.observed + traces;
    match outcome {
      case Sent => assert t.emitted[|s.emitted|] in t.emitted;
      case Filtered => assert traces[0] in t.observed;
      case Sunk => assert t.dlqEvents[|s.dlqEvents|] in t.dlqEvents;
      case Recorded =>
        var reason, attempts, now :| t.dead == M.Put(s.dead, RecordFor(cfg, msg, reason, attempts, now));
        M.PutStores(s.dead, RecordFor(cfg, msg, reason, attempts, now));
    }
  }

  // ---- Schedules ----

  ghost predicate NoneLapsed(cfg: Config, sys: W.Sys) {
    forall key | CM.EntryAt(sys.store, key).phase.Held? ::
      sys.clock - CM.EntryAt(sys.store, key).phase.since < cfg.claimLeaseSeconds as real
  }

  /** The worker machine stands where the pipeline stands. */
  ghost predicate Matches(cfg: Config, s: State, sys: W.Sys, worker: nat) {
    Related(s.claims, sys.store) && W.At(sys, worker).Idle? && NoneLapsed(cfg, sys) && AllShown(sys.log, s)
  }

  /** Some schedule takes the machine to where the pipeline gets. */
  ghost predicate Reaches(cfg: Config, sys: W.Sys, t: State, worker: nat) {
    exists actions :: Matches(cfg, t, W.Exec(SetupOf(cfg), sys, actions), worker)
  }

  lemma {:induction false} ReachesOn(cfg: Config, sys: W.Sys, actions: seq<W.Action>, t: State, worker: nat)
    requires Reaches(cfg, W.Exec(SetupOf(cfg), sys, actions), t, worker)
    ensures Reaches(cfg, sys, t, worker)
  {
    var mid := W.Exec(SetupOf(cfg), sys, actions);
    var more :| Matches(cfg, t, W.Exec(SetupOf(cfg), mid, more), worker);
    W.ExecJoins(SetupOf(cfg), sys, actions, more);
    assert Matches(cfg, t, W.Exec(SetupOf(cfg), sys, actions + more), worker);
  }

  lemma {:induction false} StaysMatched(cfg: Config, s: State, msg: RawMessage, t: State, step: Step, sys: W.Sys,
                                        end: W.Sys, worker: nat)
    requires 0 < cfg.claimLeaseSeconds && Matches(cfg, s, sys, worker)
    requires V.Visited(cfg, s, msg, t, step) && Sinks(s, t, KeyOf(cfg, msg), step)
    requires StandsFor(cfg, s, t, KeyOf(cfg, msg), step, sys, end, worker)
    ensures Matches(cfg, t, end, worker)
  {
    VisitGrows(cfg, s, msg, t, step);
    forall key, outcome | (key, outcome) in end.log ensures Shown(t, key, outcome) {
      if (key, outcome) in sys.log {
        ShownStays(s, t, key, outcome);
      } else {
        assert key == KeyOf(cfg, msg);
        VisitShows(cfg, s, msg, t, step, outcome);
      }
    }
  }

  /** A handler each of whose visits some schedule follows. */
  ghost predicate Scheduled(cfg: Config, handle: Handler) {
    forall s, msg, sys, worker {:trigger handle(s, msg), W.At(sys, worker)} | Matches(cfg, s, sys, worker) ::
      Reaches(cfg, sys, handle(s, msg).0, worker)
  }

  lemma {:induction false} ProcessIsScheduled(cfg: Config, world: World)
    requires 0 < cfg.claimLeaseSeconds
    ensures Scheduled(cfg, Handling(cfg, world))
  {
    forall s, msg, sys, worker | Matches(cfg, s, sys, worker)
      ensures Reaches(cfg, sys, Handling(cfg, world)(s, msg).0, worker)
    {
      var (t, step) := Process(cfg, world, s, msg);
      var actions := VisitActions(cfg, world, s, msg, worker, sys.clock);
      V.EveryVisit(cfg, world, s, msg);
      ProcessSinks(cfg, world, s, msg);
      VisitIsASchedule(cfg, world, s, msg, sys, worker);
      StaysMatched(cfg, s, msg, t, step, sys, W.Exec(SetupOf(cfg), sys, actions), worker);
      assert Matches(cfg, t, W.Exec(SetupOf(cfg), sys, actions), worker);
    }
  }

  lemma SameMatches(cfg: Config, s: State, t: State, sys: W.Sys, worker: nat)
    requires Matches(cfg, s, sys, worker) && t.(cursors := s.cursors, report := s.report) == s
    ensures Matches(cfg, t, sys, worker)
  {
    assert t.claims == s.claims && t.emitted == s.emitted && t.observed == s.observed;
    assert t.dlqEvents == s.dlqEvents && t.dead == s.dead;
    forall key, outcome | (key, outcome) in sys.log ensures Shown(t, key, outcome) {
      ShownStays(s, t, key, outcome);
    }
  }

  lemma {:induction false} StreamIsASchedule(cfg: Config, handle: Handler, s: State, stream: StreamRef,
                                             batch: seq<RawMessage>, blocked: bool, sys: W.Sys, worker: nat)
    requires Scheduled(cfg, handle) && Matches(cfg, s, sys, worker)
    ensures Reaches(cfg, sys, RunStream(cfg, handle, s, stream, batch, blocked).state, worker)
    decreases |batch|
  {
    if batch == [] {
      assert W.Exec(SetupOf(cfg), sys, []) == sys;
    } else {
      var (next, step) := Advance(cfg, handle, s, stream, batch[0], blocked);
      var mid := handle(Counted(s), batch[0]).0;
      SameMatches(cfg, s, Counted(s), sys, worker);
      assert W.At(sys, worker).Idle? && Reaches(cfg, sys, mid, worker);
      var actions :| Matches(cfg, mid, W.Exec(SetupOf(cfg), sys, actions), worker);
      var reached := W.Exec(SetupOf(cfg), sys, actions);
      SameMatches(cfg, mid, next, reached, worker);
      if step.Escaped? {
        assert Matches(cfg, next, W.Exec(SetupOf(cfg), sys, actions), worker);
      } else {
        StreamIsASchedule(cfg, handle, next, stream, batch[1..], blocked || step.Pending?, reached, worker);
        ReachesOn(cfg, sys, actions, RunStream(cfg, handle, next, stream, batch[1..], blocked || step.Pending?).state,
                  worker);
      }
    }
  }

  lemma {:induction false} BoxesAreASchedule(cfg: Config, handle: Handler, feed: Feed, s: State, boxes: seq<Mailbox>,
                                             sys: W.Sys, worker: nat)
    requires Scheduled(cfg, handle) && Matches(cfg, s, sys, worker)
    ensures Reaches(cfg, sys, RunBoxes(cfg, handle, feed, s, boxes).state, worker)
    decreases |boxes|
  {
    if boxes == [] {
      assert W.Exec(SetupOf(cfg), sys, []) == sys;
    } else {
      var batch := Fetch(feed, cfg, boxes[0], s.cursors);
      var first := RunStream(cfg, handle, s, boxes[0].stream, batch, false);
      StreamIsASchedule(cfg, handle, s, boxes[0].stream, batch, false, sys, worker);
      if !first.escaped {
        var actions :| Matches(cfg, first.state, W.Exec(SetupOf(cfg), sys, actions), worker);
        BoxesAreASchedule(cfg, handle, feed, first.state, boxes[1..], W.Exec(SetupOf(cfg), sys, actions), worker);
        ReachesOn(cfg, sys, actions, RunBoxes(cfg, handle, feed, first.state, boxes[1..]).state, worker);
      }
    }
  }

  /** Any history of runs from empty stores, over any feeds and in any worlds, is a schedule of
      one worker of the machine, with the pipeline's logs showing every outcome. */
  lemma {:induction false} HistoryIsASchedule(cfg: Config, calls: seq<Call>, states: seq<State>, i: nat, worker: nat)
    requires 0 < cfg.claimLeaseSeconds && i < |states|
    requires History(Running(cfg), calls, states) && states[0] == EMPTY_STATE
    ensures Reaches(cfg, W.START, states[i], worker)
  {
    if i == 0 {
      assert W.Exec(SetupOf(cfg), W.START, []) == W.START;
      assert Matches(cfg, EMPTY_STATE, W.START, worker);
    } else {
      HistoryIsASchedule(cfg, calls, states, i - 1, worker);
      var call, before := calls[i - 1], states[i - 1];
      var actions :| Matches(cfg, before, W.Exec(SetupOf(cfg), W.START, actions), worker);
      var sys := W.Exec(SetupOf(cfg), W.START, actions);
      SameMatches(cfg, before, before.(report := EMPTY_REPORT), sys, worker);
      ProcessIsScheduled(cfg, call.world);
      BoxesAreASchedule(cfg, Handling(cfg, call.world), call.feed, before.(report := EMPTY_REPORT), call.feed.boxes,
                        sys, worker);
      assert states[i] == Running(cfg)(call, before);
      ReachesOn(cfg, W.START, actions, states[i], worker);
    }
  }

  /** So every history inherits what holds under all interleavings: a done message was emitted
      or dropped, or its dead letter was put in the durable store, or sunk where there is none. */
  lemma {:induction false} HistoryLosesNothing(cfg: Config, calls: seq<Call>, states: seq<State>, i: nat, key: string)
    requires 0 < cfg.claimLeaseSeconds && i < |states|
    requires History(Running(cfg), calls, states) && states[0] == EMPTY_STATE
    requires M.IsDone(states[i].claims, key)
    ensures || Shown(states[i], key, W.Sent) || Shown(states[i], key, W.Filtered)
            || Shown(states[i], key, if cfg.durable then W.Recorded else W.Sunk)
  {
    HistoryIsASchedule(cfg, calls, states, i, 0);
    var actions :| Matches(cfg, states[i], W.Exec(SetupOf(cfg), W.START, actions), 0);
    var end := W.Exec(SetupOf(cfg), W.START, actions);
    W.NothingIsLost(SetupOf(cfg), actions);
    assert SameEntry(states[i].claims[key], end.store[key]);
    assert CM.IsFinished(end.store, key);
    assert W.AccountedFor(SetupOf(cfg), end, key);
  }
}
