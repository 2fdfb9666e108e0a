/** Tagging and dropping filtered mail run in step: they differ only in what is delivered. */
module TagDrop {
  import opened Models
  import opened Observability
  import opened MemoryStores
  import opened Delivery
  import Visits
  import Outcomes
  import FilterChain

  function Tagging(cfg: Config): Config {
    cfg.(dropFiltered := false)
  }

  function Dropping(cfg: Config): Config {
    cfg.(dropFiltered := true)
  }

  /** The work body never fails; sizes, claims and the dead-letter path may do anything. */
  predicate WorkSucceeds(work: Work) {
    work.parse.Ok? && FilterChain.Run(work.verdicts).Ok? && work.classify.Ok? && work.extract.Ok? && work.emit.Ok?
  }

  ghost predicate TotalWork(world: World) {
    forall n, msg :: WorkSucceeds(world(n, msg).first)
  }

  /** Who was filtered, by which filter, and why. */
  datatype Verdict = Verdict(key: string, filterName: string, reason: string)

  function Untagged(events: seq<EmailEvent>): seq<EmailEvent> {
    if events == [] then []
    else
      var last := events[|events| - 1];
      Untagged(events[..|events| - 1]) + if last.email.filtered then [] else [last]
  }

  function Tagged(events: seq<EmailEvent>): seq<Verdict> {
    if events == [] then []
    else
      var last := events[|events| - 1];
      Tagged(events[..|events| - 1]) +
      if last.email.filtered then [Verdict(last.idempotencyKey, last.email.matchedFilter, last.email.filterReason)]
          else []
  }

  function DroppedVerdicts(traces: seq<Trace>): seq<Verdict> {
    if traces == [] then []
    else
      var last := traces[|traces| - 1];
      DroppedVerdicts(traces[..|traces| - 1]) +
      if last.disposition == Dropped && last.reason.Filtered?
      then [Verdict(last.key, last.matchedFilter, last.reason.text)] else []
  }

  /** A state with its deliveries and its report set aside. */
  function Common(s: State): State {
    s.(emitted := [], observed := [], report := EMPTY_REPORT)
  }

  /** The counters of a report: what was fetched, duplicate, dead-lettered, emitted, dropped. */
  datatype Tally = Tally(fetched: nat, duplicates: nat, deadLettered: nat, emitted: nat, dropped: nat)

  function TallyOf(r: Report): Tally {
    Tally(r.fetched, r.duplicates, r.deadLettered, r.emitted, r.dropped)
  }

  /** The tally of a run that tags what this one dropped. */
  function TallyIfTagged(r: Report): Tally {
    Tally(r.fetched, r.duplicates, r.deadLettered, r.emitted + r.dropped, 0)
  }

  /** The tagging state `t` and the dropping state `d` agree on everything but deliveries;
      `t` delivered untagged exactly what `d` delivered, and tagged exactly what `d` dropped. */
  ghost predicate LogsInStep(t: State, d: State) {
    && Common(t) == Common(d)
    && Untagged(t.emitted) == d.emitted
    && Tagged(t.emitted) == DroppedVerdicts(d.observed)
  }

  ghost predicate InStep(t: State, d: State) {
    LogsInStep(t, d) && TallyOf(t.report) == TallyIfTagged(d.report)
  }

  ghost predicate SameStep(t: Step, d: Step) {
    t == d || (t == Terminal(Emitted) && d == Terminal(Dropped))
  }

  ghost predicate RunsAgree(t: Run, d: Run) {
    InStep(t.state, d.state) && (t.escaped <==> d.escaped)
  }

  lemma EventsAppend(events: seq<EmailEvent>, e: EmailEvent)
    ensures Untagged(events + [e]) == Untagged(events) + if e.email.filtered then [] else [e]
    ensures Tagged(events + [e]) == Tagged(events) +
                if e.email.filtered then [Verdict(e.idempotencyKey, e.email.matchedFilter, e.email.filterReason)]
                    else []
  {
    assert (events + [e])[..|events|] == events;
  }

  lemma TracesAppend(traces: seq<Trace>, last: Trace)
    ensures DroppedVerdicts(traces + [last]) == DroppedVerdicts(traces) +
                if last.disposition == Dropped && last.reason.Filtered?
                then [Verdict(last.key, last.matchedFilter, last.reason.text)] else []
  {
    assert (traces + [last])[..|traces|] == traces;
  }

  /** Both sides deliver the same untagged email. */
  lemma DeliveriesInStep(cfg: Config, work: Work, now: Time, t: State, d: State, msg: RawMessage, email: CleanEmail)
    requires InStep(t, d) && work.emit.Ok? && !email.filtered
    ensures InStep(Deliver(Tagging(cfg), work, now, t, msg, email).0,
                   Deliver(Dropping(cfg), work, now, d, msg, email).0)
  {
    EventsAppend(t.emitted, EventFor(cfg, msg, email));
    TracesAppend(d.observed, Trace(KeyOf(cfg, msg), Emitted, "emit", "", Unstated));
  }

  /** One side delivers a tagged email, the other drops the message. */
  lemma FilteredInStep(cfg: Config, work: Work, now: Time, t: State, d: State, msg: RawMessage, email: CleanEmail)
    requires InStep(t, d) && work.emit.Ok? && email.filtered
    ensures var key := KeyOf(cfg, msg);
            InStep(Deliver(Tagging(cfg), work, now, t, msg, email).0,
                   Traced(MarkedDone(Dropping(cfg), d, key, now),
                          Trace(key, Dropped, "filter", email.matchedFilter, Filtered(email.filterReason))))
  {
    EventsAppend(t.emitted, EventFor(cfg, msg, email));
    TracesAppend(d.observed, Trace(KeyOf(cfg, msg), Dropped, "filter", email.matchedFilter,
                                   Filtered(email.filterReason)));
  }

  lemma {:induction false} WorkInStep(cfg: Config, work: Work, now: Time, t: State, d: State, msg: RawMessage)
    requires InStep(t, d) && WorkSucceeds(work)
    ensures var (t', te) := DoWork(Tagging(cfg), work, now, t, msg);
            var (d', de) := DoWork(Dropping(cfg), work, now, d, msg);
            InStep(t', d') && te.Completed? && de.Completed?
              && SameStep(Terminal(te.disposition), Terminal(de.disposition))
  {
    var decision := FilterChain.Run(work.verdicts).value;
    var asks := cfg.classifies && decision.decision == FilterChain.Uncertain;
    var relevance := if asks then Some(work.classify.value) else None;
    var email := Stamped(work.extract.value, relevance, decision);
    assert DoWork(Tagging(cfg), work, now, t, msg) == Deliver(Tagging(cfg), work, now, t, msg, email);
    if decision.decision == FilterChain.Drop {
      FilteredInStep(cfg, work, now, t, d, msg, email);
    } else {
      assert DoWork(Dropping(cfg), work, now, d, msg) == Deliver(Dropping(cfg), work, now, d, msg, email);
      DeliveriesInStep(cfg, work, now, t, d, msg, email);
    }
  }

  /** Both sides dead-letter with the same record, in the same three places. */
  lemma RecordsInStep(cfg: Config, t: State, d: State, key: string, now: Time, event: DlqEvent, dead: DeadLetters,
                      letter: DeadLetter, trace: Trace)
    requires InStep(t, d) && trace.disposition == DeadLettered
    ensures InStep(Interred(cfg, t, key, now, event, dead, letter, trace),
                   Interred(cfg, d, key, now, event, dead, letter, trace))
  {
    TracesAppend(d.observed, trace);
  }

  /** A state after all of dead-lettering. */
  function Interred(cfg: Config, s: State, key: string, now: Time, event: DlqEvent, dead: DeadLetters,
                    letter: DeadLetter, trace: Trace): State {
    var done := MarkedDone(cfg, s.(dlqEvents := s.dlqEvents + [event], dead := dead), key, now);
    Traced(done.(report := done.report.WithDeadLetter(letter)), trace)
  }

  function EventOf(cfg: Config, msg: RawMessage): DlqEvent {
    DlqEvent(cfg.tenant, msg.stream.mailbox, msg.providerMessageId, msg.stream.Key(), msg.sizeBytes)
  }

  function DeadAfter(cfg: Config, v: Visit, s: State, msg: RawMessage, reason: Reason, attempts: nat): DeadLetters {
    if cfg.durable then Put(s.dead, RecordFor(cfg, msg, reason, attempts, v.recordedAt)) else s.dead
  }

  /** The three ways dead-lettering ends. */
  function DeadLetteringEnd(cfg: Config, v: Visit, s: State, msg: RawMessage, reason: Reason,
                            attempts: nat): (State, Step) {
    if v.dlqEmit.Raise? then (s, Escaped)
    else if cfg.durable && v.dlqPut.Raise? then (s.(dlqEvents := s.dlqEvents + [EventOf(cfg, msg)]), Escaped)
    else (Buried(cfg, v, s, msg, reason, attempts), Terminal(DeadLettered))
  }

  /** Tagging and dropping dead-letter alike. */
  lemma DeadLetteringEnds(cfg: Config, v: Visit, s: State, msg: RawMessage, reason: Reason, attempts: nat)
    ensures DeadLettering(Tagging(cfg), v, s, msg, reason, attempts)
         == DeadLetteringEnd(cfg, v, s, msg, reason, attempts)
    ensures DeadLettering(Dropping(cfg), v, s, msg, reason, attempts)
         == DeadLetteringEnd(cfg, v, s, msg, reason, attempts)
  {
  }

  lemma SinkInStep(t: State, d: State, event: DlqEvent)
    requires InStep(t, d)
    ensures InStep(t.(dlqEvents := t.dlqEvents + [event]), d.(dlqEvents := d.dlqEvents + [event]))
  {
    assert Common(t).dlqEvents == Common(d).dlqEvents;
    assert Common(t.(dlqEvents := t.dlqEvents + [event])) == Common(t).(dlqEvents := t.dlqEvents + [event]);
    assert Common(d.(dlqEvents := d.dlqEvents + [event])) == Common(d).(dlqEvents := d.dlqEvents + [event]);
  }

  lemma {:induction false} KeptInStep(cfg: Config, v: Visit, t: State, d: State, msg: RawMessage, reason: Reason,
                                      attempts: nat)
    requires InStep(t, d)
    ensures InStep(Buried(cfg, v, t, msg, reason, attempts), Buried(cfg, v, d, msg, reason, attempts))
  {
    var key := KeyOf(cfg, msg);
    assert Common(t).dead == Common(d).dead;
    RecordsInStep(cfg, t, d, key, v.now, EventOf(cfg, msg), DeadAfter(cfg, v, t, msg, reason, attempts),
                  DeadLetter(key, reason), Trace(key, DeadLettered, "dlq", "", reason));
  }

  /** The state after a message was dead-lettered. */
  function Buried(cfg: Config, v: Visit, s: State, msg: RawMessage, reason: Reason, attempts: nat): State {
    Interred(cfg, s, KeyOf(cfg, msg), v.now, EventOf(cfg, msg), DeadAfter(cfg, v, s, msg, reason, attempts),
             DeadLetter(KeyOf(cfg, msg), reason), Trace(KeyOf(cfg, msg), DeadLettered, "dlq", "", reason))
  }

  lemma EndsInStep(cfg: Config, v: Visit, t: State, d: State, msg: RawMessage, reason: Reason, attempts: nat)
    requires InStep(t, d)
    ensures var (t', ts) := DeadLetteringEnd(cfg, v, t, msg, reason, attempts);
            var (d', ds) := DeadLetteringEnd(cfg, v, d, msg, reason, attempts);
            InStep(t', d') && ts == ds
  {
    KeptInStep(cfg, v, t, d, msg, reason, attempts);
    SinkInStep(t, d, EventOf(cfg, msg));
  }

  lemma DeadLettersInStep(cfg: Config, v: Visit, t: State, d: State, msg: RawMessage, reason: Reason, attempts: nat)
    requires InStep(t, d)
    ensures var (t', ts) := DeadLettering(Tagging(cfg), v, t, msg, reason, attempts);
            var (d', ds) := DeadLettering(Dropping(cfg), v, d, msg, reason, attempts);
            InStep(t', d') && ts == ds
  {
    DeadLetteringEnds(cfg, v, t, msg, reason, attempts);
    DeadLetteringEnds(cfg, v, d, msg, reason, attempts);
    EndsInStep(cfg, v, t, d, msg, reason, attempts);
  }

  lemma {:induction false} AttemptsInStep(cfg: Config, v: Visit, t: State, d: State, msg: RawMessage)
    requires InStep(t, d) && WorkSucceeds(v.first)
    ensures var (t', ts) := Attempt(Tagging(cfg), v, t, msg);
            var (d', ds) := Attempt(Dropping(cfg), v, d, msg);
            InStep(t', d') && SameStep(ts, ds)
  {
    if v.size.Ok? {
      var size, attempts := SizeOf(v.size.value, msg), Attempts(t.claims, KeyOf(cfg, msg));
      if size <= 0 {
        DeadLettersInStep(cfg, v, t, d, msg, SizeUnknown(size), attempts);
      } else if cfg.maxMessageBytes < size {
        DeadLettersInStep(cfg, v, t, d, msg, Oversized(size, cfg.maxMessageBytes), attempts);
      } else {
        WorkInStep(cfg, v.first, v.now, t, d, msg);
      }
    }
  }

  lemma ClaimsInStep(cfg: Config, t: State, d: State, msg: RawMessage)
    requires InStep(t, d)
    ensures Claimable(t.claims, KeyOf(cfg, msg)) <==> Claimable(d.claims, KeyOf(cfg, msg))
    ensures Claimable(t.claims, KeyOf(cfg, msg)) ==> InStep(Visits.Entered(cfg, t, msg), Visits.Entered(cfg, d, msg))
  {
    assert Common(t).claims == Common(d).claims;
    if Claimable(t.claims, KeyOf(cfg, msg)) {
      var t', d' := Visits.Entered(cfg, t, msg), Visits.Entered(cfg, d, msg);
      assert Common(t') == Common(t).(visits := t'.visits, claims := t'.claims);
      assert Common(d') == Common(d).(visits := d'.visits, claims := d'.claims);
    }
  }

  lemma DuplicatesInStep(t: State, d: State, trace: Trace)
    requires InStep(t, d) && trace.disposition == Duplicate
    ensures InStep(Traced(t.(visits := t.visits + 1), trace), Traced(d.(visits := d.visits + 1), trace))
  {
    TracesAppend(d.observed, trace);
  }

  /** A visit that wins its claim is an attempt, on either side from the same state inside. */
  lemma VisitIsAttempt(cfg: Config, side: Config, world: World, s: State, msg: RawMessage)
    requires side in {Tagging(cfg), Dropping(cfg)} && Claimable(s.claims, KeyOf(cfg, msg))
    ensures Process(side, world, s, msg) == Attempt(side, world(s.visits, msg), Visits.Entered(cfg, s, msg), msg)
  {
  }

  ghost predicate VisitsAgree(t: (State, Step), d: (State, Step)) {
    InStep(t.0, d.0) && SameStep(t.1, d.1)
  }

  lemma {:induction false} WonVisitsInStep(cfg: Config, world: World, t: State, d: State, msg: RawMessage)
    requires InStep(t, d) && TotalWork(world) && t.visits == d.visits
    requires Claimable(t.claims, KeyOf(cfg, msg)) && Claimable(d.claims, KeyOf(cfg, msg))
    ensures VisitsAgree(Process(Tagging(cfg), world, t, msg), Process(Dropping(cfg), world, d, msg))
  {
    var t', d', v := Visits.Entered(cfg, t, msg), Visits.Entered(cfg, d, msg), world(t.visits, msg);
    assert VisitsAgree(Attempt(Tagging(cfg), v, t', msg), Attempt(Dropping(cfg), v, d', msg)) by {
      ClaimsInStep(cfg, t, d, msg);
      AttemptsInStep(cfg, v, t', d', msg);
    }
    VisitIsAttempt(cfg, Tagging(cfg), world, t, msg);
    VisitIsAttempt(cfg, Dropping(cfg), world, d, msg);
  }

  lemma {:induction false} VisitsInStep(cfg: Config, world: World, t: State, d: State, msg: RawMessage)
    requires InStep(t, d) && TotalWork(world)
    ensures var (t', ts) := Process(Tagging(cfg), world, t, msg);
            var (d', ds) := Process(Dropping(cfg), world, d, msg);
            InStep(t', d') && SameStep(ts, ds)
  {
    assert t.visits == Common(t).visits == Common(d).visits == d.visits;
    ClaimsInStep(cfg, t, d, msg);
    if Claimable(t.claims, KeyOf(cfg, msg)) {
      WonVisitsInStep(cfg, world, t, d, msg);
    } else {
      DuplicatesInStep(t, d, Trace(KeyOf(cfg, msg), Duplicate, "dedupe", "", Unstated));
    }
  }

  /** Two handlers that keep in step. */
  ghost predicate Paired(tag: Handler, drop: Handler) {
    forall t, d, msg {:trigger tag(t, msg), drop(d, msg)} | InStep(t, d) ::
      InStep(tag(t, msg).0, drop(d, msg).0) && SameStep(tag(t, msg).1, drop(d, msg).1)
  }

  lemma ProcessIsPaired(cfg: Config, world: World)
    requires TotalWork(world)
    ensures Paired(Handling(Tagging(cfg), world), Handling(Dropping(cfg), world))
  {
    var tag, drop := Handling(Tagging(cfg), world), Handling(Dropping(cfg), world);
    forall t, d, msg | InStep(t, d)
      ensures InStep(tag(t, msg).0, drop(d, msg).0) && SameStep(tag(t, msg).1, drop(d, msg).1)
    {
      VisitsInStep(cfg, world, t, d, msg);
    }
  }

  lemma TurnsInStep(cfg: Config, tag: Handler, drop: Handler, t: State, d: State, stream: StreamRef, msg: RawMessage,
                    blocked: bool)
    requires InStep(t, d) && Paired(tag, drop)
    ensures var (t', ts) := Advance(Tagging(cfg), tag, t, stream, msg, blocked);
            var (d', ds) := Advance(Dropping(cfg), drop, d, stream, msg, blocked);
            InStep(t', d') && SameStep(ts, ds)
  {
    assert InStep(Counted(t), Counted(d));
    assert SameStep(tag(Counted(t), msg).1, drop(Counted(d), msg).1);
  }

  lemma {:induction false} StreamsInStep(
    cfg: Config, tag: Handler, drop: Handler, t: State, d: State, stream: StreamRef, batch: seq<RawMessage>,
        blocked: bool)
    requires InStep(t, d) && Paired(tag, drop)
    ensures var tr := RunStream(Tagging(cfg), tag, t, stream, batch, blocked);
            var dr := RunStream(Dropping(cfg), drop, d, stream, batch, blocked);
            RunsAgree(tr, dr)
    decreases |batch|
  {
    if batch != [] {
      TurnsInStep(cfg, tag, drop, t, d, stream, batch[0], blocked);
      var (t', ts) := Advance(Tagging(cfg), tag, t, stream, batch[0], blocked);
      var (d', ds) := Advance(Dropping(cfg), drop, d, stream, batch[0], blocked);
      if !ts.Escaped? {
        StreamsInStep(cfg, tag, drop, t', d', stream, batch[1..], blocked || ts.Pending?);
      }
    }
  }

  lemma {:induction false} BoxesInStep(cfg: Config, tag: Handler, drop: Handler, feed: Feed, t: State, d: State,
                                       boxes: seq<Mailbox>)
    requires InStep(t, d) && Paired(tag, drop)
    ensures var tr := RunBoxes(Tagging(cfg), tag, feed, t, boxes);
            var dr := RunBoxes(Dropping(cfg), drop, feed, d, boxes);
            RunsAgree(tr, dr)
    decreases |boxes|
  {
    if boxes != [] {
      var batch := Fetch(feed, cfg, boxes[0], t.cursors);
      assert batch == Fetch(feed, Tagging(cfg), boxes[0], t.cursors) == Fetch(feed, Dropping(cfg), boxes[0], d.cursors);
      StreamsInStep(cfg, tag, drop, t, d, boxes[0].stream, batch, false);
      var tr := RunStream(Tagging(cfg), tag, t, boxes[0].stream, batch, false);
      var dr := RunStream(Dropping(cfg), drop, d, boxes[0].stream, batch, false);
      if !tr.escaped {
        BoxesInStep(cfg, tag, drop, feed, tr.state, dr.state, boxes[1..]);
      }
    }
  }

  lemma FeedsInStep(cfg: Config, tag: Handler, drop: Handler, feed: Feed, t: State, d: State)
    requires LogsInStep(t, d) && Paired(tag, drop)
    ensures var tr := RunFeed(Tagging(cfg), tag, feed, t);
            var dr := RunFeed(Dropping(cfg), drop, feed, d);
            RunsAgree(tr, dr)
  {
    var t0, d0 := t.(report := EMPTY_REPORT), d.(report := EMPTY_REPORT);
    assert Common(t0) == Common(t) && Common(d0) == Common(d);
    BoxesInStep(cfg, tag, drop, feed, t0, d0, feed.boxes);
  }

  ghost predicate BothTerminal(t: Report, d: Report) {
    t.AllTerminal() <==> d.AllTerminal()
  }

  lemma ReportsAside(t: State, d: State)
    requires InStep(t, d)
    ensures LogsInStep(t, d) && BothTerminal(t.report, d.report)
  {
  }

  lemma RunsInStep(cfg: Config, world: World, feed: Feed, t: State, d: State)
    requires LogsInStep(t, d) && TotalWork(world)
    ensures var tr := RunOnce(Tagging(cfg), world, feed, t);
            var dr := RunOnce(Dropping(cfg), world, feed, d);
            && RunsAgree(tr, dr) && LogsInStep(tr.state, dr.state)
            && BothTerminal(tr.state.report, dr.state.report)
  {
    ProcessIsPaired(cfg, world);
    FeedsInStep(cfg, Handling(Tagging(cfg), world), Handling(Dropping(cfg), world), feed, t, d);
    ReportsAside(RunOnce(Tagging(cfg), world, feed, t).state, RunOnce(Dropping(cfg), world, feed, d).state);
  }

  /** Two ways to answer a call that keep in step on the calls whose work is total. */
  ghost predicate NextInStep(tag: Outcomes.Next, drop: Outcomes.Next) {
    forall call: Outcomes.Call, t, d {:trigger tag(call, t), drop(call, d)} | TotalWork(call.world)
      && LogsInStep(t, d) ::
      LogsInStep(tag(call, t), drop(call, d))
  }

  lemma RunningInStep(cfg: Config)
    ensures NextInStep(Outcomes.Running(Tagging(cfg)), Outcomes.Running(Dropping(cfg)))
  {
    forall call: Outcomes.Call, t, d | TotalWork(call.world) && LogsInStep(t, d)
      ensures LogsInStep(Outcomes.Running(Tagging(cfg))(call, t), Outcomes.Running(Dropping(cfg))(call, d))
    {
      RunsInStep(cfg, call.world, call.feed, t, d);
    }
  }

  lemma {:induction false} HistoriesInStep(tag: Outcomes.Next, drop: Outcomes.Next, calls: seq<Outcomes.Call>,
                                           tagging: seq<State>, dropping: seq<State>, i: nat)
    requires NextInStep(tag, drop)
    requires Outcomes.History(tag, calls, tagging) && Outcomes.History(drop, calls, dropping)
    requires forall k | 0 <= k < |calls| :: TotalWork(calls[k].world)
    requires i <= |calls| && LogsInStep(tagging[0], dropping[0])
    ensures LogsInStep(tagging[i], dropping[i])
  {
    if i > 0 {
      HistoriesInStep(tag, drop, calls, tagging, dropping, i - 1);
      assert TotalWork(calls[i - 1].world);
      assert LogsInStep(tag(calls[i - 1], tagging[i - 1]), drop(calls[i - 1], dropping[i - 1]));
    }
  }

  /** Over any sequence of runs, tagging and dropping settle the same messages and leave the
      same cursors; the tagging side's untagged events are the dropping side's events, in
      order, and its tagged events are the dropped messages, with filter and reason. */
  lemma TagSimulatesDrop(cfg: Config, calls: seq<Outcomes.Call>, tagging: seq<State>, dropping: seq<State>, i: nat)
    requires Outcomes.History(Outcomes.Running(Tagging(cfg)), calls, tagging)
    requires Outcomes.History(Outcomes.Running(Dropping(cfg)), calls, dropping)
    requires forall k | 0 <= k < |calls| :: TotalWork(calls[k].world)
    requires i <= |calls| && LogsInStep(tagging[0], dropping[0])
    ensures LogsInStep(tagging[i], dropping[i])
  {
    RunningInStep(cfg);
    HistoriesInStep(Outcomes.Running(Tagging(cfg)), Outcomes.Running(Dropping(cfg)), calls, tagging, dropping, i);
  }
}
