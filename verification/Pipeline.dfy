/** The orchestrator.  Its objects are updated in place; every method is tied to the
    function of `Delivery` that says what it does to the state as a whole. */
module Pipelines {
  import opened Models
  import opened Observability
  import opened MemoryStores
  import opened Delivery
  import FilterChain
  import Base64

  /** Everything outside the pipeline: answers each visit as it pleases and keeps what it
      was sent. */
  class Outside {
    const world: World
    var visits: nat
    var emitted: seq<EmailEvent>
    var refused: seq<EmailEvent>
    var dlqEvents: seq<DlqEvent>
    var observed: seq<Trace>

    constructor (world: World)
      ensures this.world == world && visits == 0
      ensures emitted == [] && refused == [] && dlqEvents == [] && observed == []
    {
      this.world := world;
      visits, emitted, refused, dlqEvents, observed := 0, [], [], [], [];
    }

    method Open(msg: RawMessage) returns (visit: Visit)
      modifies this`visits
      ensures visit == world(old(visits), msg) && visits == old(visits) + 1
    {
      visit := world(visits, msg);
      visits := visits + 1;
    }

    method Emit(event: EmailEvent)
      modifies this`emitted
      ensures emitted == old(emitted) + [event]
    {
      emitted := emitted + [event];
    }

    method Refuse(event: EmailEvent)
      modifies this`refused
      ensures refused == old(refused) + [event]
    {
      refused := refused + [event];
    }

    method EmitDeadLetter(event: DlqEvent)
      modifies this`dlqEvents
      ensures dlqEvents == old(dlqEvents) + [event]
    {
      dlqEvents := dlqEvents + [event];
    }

    method Observe(trace: Trace)
      modifies this`observed
      ensures observed == old(observed) + [trace]
    {
      observed := observed + [trace];
    }
  }

  class Pipeline {
    const cfg: Config
    const cursorStore: InMemoryCursorStore
    const dedupeStore: InMemoryDedupeStore
    const deadLetterStore: InMemoryDeadLetterStore
    const outside: Outside

    constructor (cfg: Config, cursorStore: InMemoryCursorStore, dedupeStore: InMemoryDedupeStore,
                 deadLetterStore: InMemoryDeadLetterStore, outside: Outside)
      ensures this.cfg == cfg && this.cursorStore == cursorStore && this.dedupeStore == dedupeStore
      ensures this.deadLetterStore == deadLetterStore && this.outside == outside
    {
      this.cfg, this.cursorStore, this.dedupeStore := cfg, cursorStore, dedupeStore;
      this.deadLetterStore, this.outside := deadLetterStore, outside;
    }

    /** The state of every object a run touches, as one value, around a given report. */
    ghost function StateWith(report: Report): State
      reads cursorStore, dedupeStore, deadLetterStore, outside
    {
      State(dedupeStore.claims, map[], cursorStore.cursors, deadLetterStore.records, outside.emitted,
            outside.refused, outside.dlqEvents, outside.observed, outside.visits, report)
    }

    ghost function Snap(report: RunReport): State
      reads cursorStore, dedupeStore, deadLetterStore, outside, report
    {
      StateWith(report.View())
    }

    method RecordTrace(trace: Trace, report: RunReport)
      modifies report, outside`observed
      ensures Snap(report) == Traced(old(Snap(report)), trace)
    {
      report.Record(trace);
      outside.Observe(trace);
    }

    method RecordStrips(strips: seq<Strip>, report: RunReport)
      modifies report
      ensures Snap(report) == old(Snap(report)).(report := old(report.View()).WithStrips(strips))
    {
      ghost var before := report.View();
      for i := 0 to |strips|
        invariant report.View() == before.WithStrips(strips[..i])
      {
        report.RecordStripped(strips[i]);
        assert strips[..i + 1] == strips[..i] + [strips[i]];
      }
      assert strips[..|strips|] == strips;
    }

    /** The work body from the stripped attachments on. */
    method DeliverEmail(work: Work, now: Time, msg: RawMessage, email: CleanEmail, report: RunReport)
      returns (end: WorkEnd)
      modifies dedupeStore, report, outside`observed, outside`emitted, outside`refused
      ensures (Snap(report), end) == Deliver(cfg, work, now, old(Snap(report)), msg, email)
    {
      RecordStrips(email.content.stripped, report);
      if work.emit.Raise? {
        outside.Refuse(EventFor(cfg, msg, email));
        return Failing(work.emit.failure);
      }
      outside.Emit(EventFor(cfg, msg, email));
      dedupeStore.MarkDone(KeyOf(cfg, msg), cfg.doneTtlSeconds, now);
      RecordTrace(Trace(KeyOf(cfg, msg), Emitted, "emit", "", Unstated), report);
      return Completed(Emitted);
    }

    method DoWork(work: Work, now: Time, msg: RawMessage, report: RunReport) returns (end: WorkEnd)
      modifies dedupeStore, report, outside`observed, outside`emitted, outside`refused
      ensures (Snap(report), end) == Delivery.DoWork(cfg, work, now, old(Snap(report)), msg)
    {
      var key := KeyOf(cfg, msg);
      if work.parse.Raise? {
        return Failing(work.parse.failure);
      }
      var verdict := FilterChain.Ask(work.verdicts);
      if verdict.Raise? {
        return Failing(verdict.failure);
      }
      var decision := verdict.value;
      if decision.decision == FilterChain.Drop && cfg.dropFiltered {
        dedupeStore.MarkDone(key, cfg.doneTtlSeconds, now);
        RecordTrace(Trace(key, Dropped, "filter", decision.filterName, Filtered(decision.reason)), report);
        return Completed(Dropped);
      }
      var relevance := None;
      if cfg.classifies && decision.decision == FilterChain.Uncertain {
        if work.classify.Raise? {
          return Failing(work.classify.failure);
        }
        relevance := Some(work.classify.value);
      }
      if work.extract.Raise? {
        return Failing(work.extract.failure);
      }
      end := DeliverEmail(work, now, msg, Stamped(work.extract.value, relevance, decision), report);
    }

    /** Done, reported and traced. */
    method CloseDeadLetter(v: Visit, key: string, reason: Reason, report: RunReport)
      modifies dedupeStore, report, outside`observed
      ensures var done := MarkedDone(cfg, old(Snap(report)), key, v.now);
              Snap(report) == Traced(done.(report := done.report.WithDeadLetter(DeadLetter(key, reason))),
                                     Trace(key, DeadLettered, "dlq", "", reason))
    {
      dedupeStore.MarkDone(key, cfg.doneTtlSeconds, v.now);
      report.AddDeadLetter(DeadLetter(key, reason));
      RecordTrace(Trace(key, DeadLettered, "dlq", "", reason), report);
    }

    method DeadLetterMessage(v: Visit, msg: RawMessage, report: RunReport, reason: Reason, attempts: nat)
      returns (step: Step)
      requires deadLetterStore.Valid()
      modifies dedupeStore, deadLetterStore, report, outside`observed, outside`dlqEvents
      ensures deadLetterStore.Valid()
      ensures (Snap(report), step) == DeadLettering(cfg, v, old(Snap(report)), msg, reason, attempts)
    {
      var key := KeyOf(cfg, msg);
      if v.dlqEmit.Raise? {
        return Escaped;
      }
      outside.EmitDeadLetter(
        DlqEvent(cfg.tenant, msg.stream.mailbox, msg.providerMessageId, msg.stream.Key(), msg.sizeBytes));
      if cfg.durable {
        if v.dlqPut.Raise? {
          return Escaped;
        }
        deadLetterStore.PutRecord(RecordFor(cfg, msg, reason, attempts, v.recordedAt));
      }
      CloseDeadLetter(v, key, reason, report);
      return Terminal(DeadLettered);
    }

    method HandleAuthError(v: Visit, msg: RawMessage, report: RunReport) returns (step: Step)
      requires deadLetterStore.Valid()
      modifies dedupeStore, deadLetterStore, report, outside`observed, outside`dlqEvents, outside`emitted,
          outside`refused
      ensures deadLetterStore.Valid()
      ensures (Snap(report), step) == RefreshAndRetryOnce(cfg, v, old(Snap(report)), msg)
    {
      if cfg.refreshes && v.refresh.Raise? {
        return Escaped;
      }
      var end := DoWork(v.second, v.now, msg, report);
      match end {
        case Completed(d) => step := Terminal(d);
        case Failing(f) => step := DeadLetterMessage(v, msg, report, AuthRetryFailed(Auth, f), 1);
      }
    }

    method RetryOrDeadLetterMessage(v: Visit, msg: RawMessage, report: RunReport, attempts: nat) returns (step: Step)
      requires deadLetterStore.Valid()
      modifies dedupeStore, deadLetterStore, report, outside`observed, outside`dlqEvents
      ensures deadLetterStore.Valid()
      ensures (Snap(report), step) == RetryOrDeadLetter(cfg, v, old(Snap(report)), msg, attempts)
    {
      if cfg.maxAttempts <= attempts {
        step := DeadLetterMessage(v, msg, report, Failed(Transient), attempts);
        return;
      }
      dedupeStore.Release(KeyOf(cfg, msg));
      return Pending;
    }

    method WorkOrRoute(v: Visit, msg: RawMessage, report: RunReport, attempts: nat) returns (step: Step)
      requires deadLetterStore.Valid()
      requires attempts == Attempts(dedupeStore.claims, KeyOf(cfg, msg))
      modifies dedupeStore, deadLetterStore, report, outside`observed, outside`dlqEvents, outside`emitted,
          outside`refused
      ensures deadLetterStore.Valid()
      ensures (Snap(report), step) == Attempt(cfg, v, old(Snap(report)), msg)
    {
      if v.size.Raise? {
        return Escaped;
      }
      var size := SizeOf(v.size.value, msg);
      if size <= 0 {
        step := DeadLetterMessage(v, msg, report, SizeUnknown(size), attempts);
        return;
      }
      if cfg.maxMessageBytes < size {
        step := DeadLetterMessage(v, msg, report, Oversized(size, cfg.maxMessageBytes), attempts);
        return;
      }
      var end := DoWork(v.first, v.now, msg, report);
      match end {
        case Completed(d) => step := Terminal(d);
        case Failing(Permanent) => step := DeadLetterMessage(v, msg, report, Failed(Permanent), attempts);
        case Failing(Auth) => step := HandleAuthError(v, msg, report);
        case Failing(Transient) => step := RetryOrDeadLetterMessage(v, msg, report, attempts);
      }
    }

    method Process(msg: RawMessage, report: RunReport) returns (step: Step)
      requires deadLetterStore.Valid()
      modifies dedupeStore, deadLetterStore, report, outside
      ensures deadLetterStore.Valid()
      ensures (Snap(report), step) == Delivery.Process(cfg, outside.world, old(Snap(report)), msg)
    {
      var key := KeyOf(cfg, msg);
      var v := outside.Open(msg);
      var won := dedupeStore.TryClaim(key, cfg.claimLeaseSeconds);
      if !won {
        RecordTrace(Trace(key, Duplicate, "dedupe", "", Unstated), report);
        return Terminal(Duplicate);
      }
      var attempts := dedupeStore.RecordAttempt(key);
      step := WorkOrRoute(v, msg, report, attempts);
    }

    method Bookmark(stream: StreamRef, msg: RawMessage, report: RunReport, step: Step, blocked: bool)
      modifies cursorStore
      ensures Snap(report) == Bookmarked(cfg, old(Snap(report)), stream, msg, step, blocked)
    {
      if step.Terminal? && !blocked {
        var _ := cursorStore.CommitIfAhead(cfg.tenant, stream, msg.cursor);
      }
    }

    method Turn(stream: StreamRef, msg: RawMessage, report: RunReport, blocked: bool) returns (step: Step)
      requires deadLetterStore.Valid()
      modifies dedupeStore, cursorStore, deadLetterStore, report, outside
      ensures deadLetterStore.Valid()
      ensures (Snap(report), step) == Advance(cfg, Handling(cfg, outside.world), old(Snap(report)), stream, msg,
                                              blocked)
    {
      report.CountFetched();
      assert Snap(report) == Counted(old(Snap(report)));
      step := Process(msg, report);
      Bookmark(stream, msg, report, step, blocked);
    }

    /** Stops early only when an exception leaves `Process`; `consumed` counts the messages
        taken from the batch by then. */
    method RunStream(stream: StreamRef, batch: seq<RawMessage>, report: RunReport)
      returns (escaped: bool, consumed: nat)
      requires deadLetterStore.Valid()
      modifies dedupeStore, cursorStore, deadLetterStore, report, outside
      ensures deadLetterStore.Valid()
      ensures var run := Delivery.RunStream(cfg, Handling(cfg, outside.world), old(Snap(report)), stream, batch, false);
              Snap(report) == run.state && escaped == run.escaped && consumed == |run.steps|
    {
      ghost var whole := Delivery.RunStream(cfg, Handling(cfg, outside.world), Snap(report), stream, batch, false);
      var blocked := false;
      consumed := 0;
      assert batch[0..] == batch;
      while consumed < |batch|
        invariant consumed <= |batch| && deadLetterStore.Valid()
        invariant var left := Delivery.RunStream(cfg, Handling(cfg, outside.world), Snap(report), stream,
                                                 batch[consumed..], blocked);
                  whole.state == left.state && whole.escaped == left.escaped && |whole.steps| == consumed + |left.steps|
      {
        StreamUnrolls(cfg, Handling(cfg, outside.world), Snap(report), stream, batch, consumed, blocked);
        var step := Turn(stream, batch[consumed], report, blocked);
        consumed := consumed + 1;
        if step.Escaped? {
          return true, consumed;
        }
        blocked := blocked || step.Pending?;
      }
      escaped := false;
    }

    method RunOnce(feed: Feed) returns (report: RunReport, escaped: bool)
      requires deadLetterStore.Valid()
      modifies dedupeStore, cursorStore, deadLetterStore, outside
      ensures deadLetterStore.Valid() && fresh(report)
      ensures var run := Delivery.RunOnce(cfg, outside.world, feed, old(StateWith(EMPTY_REPORT)));
              Snap(report) == run.state && escaped == run.escaped
    {
      report := new RunReport();
      ghost var whole := RunBoxes(cfg, Handling(cfg, outside.world), feed, Snap(report), feed.boxes);
      var i := 0;
      while i < |feed.boxes|
        invariant i <= |feed.boxes| && deadLetterStore.Valid()
        invariant var left := RunBoxes(cfg, Handling(cfg, outside.world), feed, Snap(report), feed.boxes[i..]);
                  whole.state == left.state && whole.escaped == left.escaped
      {
        assert feed.boxes[i..][1..] == feed.boxes[i + 1..];
        var batch := Fetch(feed, cfg, feed.boxes[i], cursorStore.cursors);
        var stopped, _ := RunStream(feed.boxes[i].stream, batch, report);
        if stopped {
          return report, true;
        }
        i := i + 1;
      }
      escaped := false;
    }
  }
}
