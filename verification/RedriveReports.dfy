/** What a redrive reports of its replays, and what a replay leaves alone. */
module RedriveReports {
  import opened Models
  import opened Observability
  import opened MemoryStores
  import opened Delivery
  import opened Visits
  import opened Redrive
  import opened Contents
  import opened Streaming
  import Base64

  /** The dead letters these traces stand for. */
  function LettersIn(traces: seq<Trace>): seq<DeadLetter> {
    if traces == [] then []
    else
      (if traces[0].disposition == DeadLettered then [DeadLetter(traces[0].key, traces[0].reason)] else [])
      + LettersIn(traces[1..])
  }

  /** Every counter counts these traces, and the dead letters are theirs. */
  ghost predicate Summarises(r: Report, traces: seq<Trace>) {
    && r.traces == traces && r.dlq == LettersIn(traces)
    && r.emitted == Count(traces, Emitted) && r.dropped == Count(traces, Dropped)
    && r.duplicates == Count(traces, Duplicate) && r.deadLettered == Count(traces, DeadLettered)
  }

  lemma {:induction false} CountJoins(left: seq<Trace>, right: seq<Trace>, d: Disposition)
    ensures Count(left + right, d) == Count(left, d) + Count(right, d)
    decreases |right|
  {
    if right == [] {
      assert left + right == left;
    } else {
      var less := right[..|right| - 1];
      CountJoins(left, less, d);
      assert (left + right)[..|left + right| - 1] == left + less;
    }
  }

  lemma {:induction false} LettersJoin(left: seq<Trace>, right: seq<Trace>)
    ensures LettersIn(left + right) == LettersIn(left) + LettersIn(right)
  {
    if left == [] {
      assert left + right == right;
    } else {
      assert (left + right)[1..] == left[1..] + right;
      LettersJoin(left[1..], right);
    }
  }

  lemma SummariesJoin(into: Report, part: Report)
    requires Summarises(into, into.traces) && Summarises(part, part.traces)
    ensures Summarises(Accumulated(into, part), into.traces + part.traces)
  {
    LettersJoin(into.traces, part.traces);
    forall d ensures Count(into.traces + part.traces, d) == Count(into.traces, d) + Count(part.traces, d) {
      CountJoins(into.traces, part.traces, d);
    }
  }

  /** What one replay reports: exactly what it traced. */
  ghost predicate Reports(s: State, run: Run) {
    && run.state.observed == s.observed + run.state.report.traces
    && Summarises(run.state.report, run.state.report.traces)
    && (run.escaped ==> run.state.report.traces == [])
  }

  lemma GainsReport(cfg: Config, v: Visit, count: nat, msg: RawMessage, s: State, t: State, step: Step)
    requires Visited(cfg, s, msg, t, step) && VisitSays(cfg, v, count, msg, s, t, step)
    requires s.report.traces == [] && s.report.dlq == [] && Consistent(s.report)
    ensures t.observed == s.observed + t.report.traces && Summarises(t.report, t.report.traces)
    ensures step.Escaped? ==> t.report.traces == []
  {
    var traces :| TracesOf(KeyOf(cfg, msg), step, traces)
                  && t.observed == s.observed + traces && ReportGains(s.report, t.report, traces);
    assert t.report.traces == traces;
    if traces != [] {
      assert traces == [traces[0]] && Last(t.observed) == traces[0];
      OneTrace(t.report, traces[0]);
    }
  }

  lemma VisitReports(cfg: Config, world: World, s: State, msg: RawMessage)
    ensures var (mid, step) := Process(Scoped(cfg), world, Counted(Fresh(s)), msg);
            && mid.observed == s.observed + mid.report.traces && Summarises(mid.report, mid.report.traces)
            && (step.Escaped? ==> mid.report.traces == [])
  {
    var before := Counted(Fresh(s));
    var (mid, step) := Process(Scoped(cfg), world, before, msg);
    EveryVisit(Scoped(cfg), world, before, msg);
    EveryVisitSays(Scoped(cfg), world, before, msg);
    GainsReport(Scoped(cfg), world(before.visits, msg), Attempts(before.claims, KeyOf(Scoped(cfg), msg)) + 1, msg,
                before, mid, step);
  }

  lemma OneTrace(r: Report, trace: Trace)
    requires Consistent(r) && r.traces == [trace]
    requires trace.disposition == DeadLettered ==>
          r.dlq != [] && r.dlq[|r.dlq| - 1] == DeadLetter(trace.key, trace.reason)
    ensures Summarises(r, r.traces)
  {
    assert [trace] == [] + [trace] && [trace][1..] == [];
    CountAppend([], trace);
    assert LettersIn([trace]) == if trace.disposition == DeadLettered then [DeadLetter(trace.key, trace.reason)]
        else [];
  }

  ghost predicate Reporting(replay: Replayer) {
    forall s, msg :: Reports(s, replay(s, msg))
  }

  lemma ReplayingReports(cfg: Config, world: World)
    ensures Reporting(Replaying(cfg, world))
  {
    forall s, msg ensures Reports(s, Replaying(cfg, world)(s, msg)) {
      ReplayVisitsOnce(cfg, world, s, msg);
      VisitReports(cfg, world, s, msg);
    }
  }

  lemma {:induction false} RedriveSummarises(replay: Replayer, lenient: Lenient, pending: seq<DeadLetterRecord>,
                                             store: DeadLetters, s: State, report: RedriveReport, base: seq<Trace>)
    requires Reporting(replay)
    requires s.observed == base + report.run.traces && Summarises(report.run, report.run.traces)
    ensures var out := RedriveAll(replay, lenient, pending, store, s, report);
            out.sent.observed == base + out.report.run.traces
            && Summarises(out.report.run, out.report.run.traces)
    decreases |pending|
  {
    if pending != [] && Rebuild(pending[0], lenient).Ok? {
      var run := replay(s, Rebuild(pending[0], lenient).value);
      assert Reports(s, run);
      if !run.escaped {
        var gone, judged := Resubmitted(run.state.report),
            Judged(report.(examined := report.examined + 1), run.state.report);
        SummariesJoin(report.run, run.state.report);
        assert Fresh(run.state).observed == base + judged.run.traces;
        RedriveSummarises(replay, lenient, pending[1..],
                          if gone then Without(store, pending[0].recordId) else store,
                          Fresh(run.state), judged, base);
      }
    }
  }

  /** The report of a redrive lists exactly the traces its replays left, in order, its counters
      count them, and its dead letters are those traced as such. */
  lemma RedriveReportsItsTraces(cfg: Config, world: World, lenient: Lenient, pending: seq<DeadLetterRecord>,
                                store: DeadLetters, s: State)
    ensures var out := RedriveAll(Replaying(cfg, world), lenient, pending, store, s, NOTHING_YET);
            out.sent.observed == s.observed + out.report.run.traces
            && Summarises(out.report.run, out.report.run.traces)
  {
    ReplayingReports(cfg, world);
    assert s.observed + [] == s.observed;
    RedriveSummarises(Replaying(cfg, world), lenient, pending, store, s, NOTHING_YET, s.observed);
  }

  // ---- What a replay leaves alone ----

  /** These answers differ at most where credentials are refreshed and records are kept. */
  ghost predicate AlikeButFor(world: World, other: World) {
    forall n, msg :: SameAnswers(world(n, msg), other(n, msg))
  }

  predicate SameAnswers(v: Visit, w: Visit) {
    v.size == w.size && v.first == w.first && v.second == w.second && v.dlqEmit == w.dlqEmit && v.now == w.now
  }

  lemma {:induction false} DeadLettersAlike(cfg: Config, v: Visit, w: Visit, s: State, msg: RawMessage,
                                            reason: Reason, attempts: nat)
    requires SameAnswers(v, w)
    ensures DeadLettering(Scoped(cfg), v, s, msg, reason, attempts)
         == DeadLettering(Scoped(cfg), w, s, msg, reason, attempts)
  {
  }

  lemma {:induction false} RetriesAlike(cfg: Config, v: Visit, w: Visit, s: State, msg: RawMessage)
    requires SameAnswers(v, w)
    ensures RefreshAndRetryOnce(Scoped(cfg), v, s, msg) == RefreshAndRetryOnce(Scoped(cfg), w, s, msg)
  {
    var (worked, end) := DoWork(Scoped(cfg), v.second, v.now, s, msg);
    if end.Failing? {
      DeadLettersAlike(cfg, v, w, worked, msg, AuthRetryFailed(Auth, end.failure), 1);
    }
  }

  lemma {:induction false} AttemptsAlike(cfg: Config, v: Visit, w: Visit, s: State, msg: RawMessage)
    requires SameAnswers(v, w)
    ensures Attempt(Scoped(cfg), v, s, msg) == Attempt(Scoped(cfg), w, s, msg)
  {
    var attempts := Attempts(s.claims, KeyOf(Scoped(cfg), msg));
    if v.size.Ok? {
      var size := SizeOf(v.size.value, msg);
      DeadLettersAlike(cfg, v, w, s, msg, SizeUnknown(size), attempts);
      DeadLettersAlike(cfg, v, w, s, msg, Oversized(size, cfg.maxMessageBytes), attempts);
      var (worked, end) := DoWork(Scoped(cfg), v.first, v.now, s, msg);
      if end.Failing? {
        DeadLettersAlike(cfg, v, w, worked, msg, Failed(end.failure), attempts);
        RetriesAlike(cfg, v, w, worked, msg);
      }
    }
  }

  lemma {:induction false} VisitsAlike(cfg: Config, world: World, other: World, s: State, msg: RawMessage)
    requires SameAnswers(world(s.visits, msg), other(s.visits, msg))
    ensures Process(Scoped(cfg), world, s, msg) == Process(Scoped(cfg), other, s, msg)
  {
    var key := KeyOf(Scoped(cfg), msg);
    if Claimable(s.claims, key) {
      var entered := s.(visits := s.visits + 1, claims := Attempted(Claimed(s.claims, key), key));
      AttemptsAlike(cfg, world(s.visits, msg), other(s.visits, msg), entered, msg);
    }
  }

  lemma ReplayKeepsNoRecord(cfg: Config, world: World, s: State, msg: RawMessage)
    ensures Replay(cfg, world, s, msg).state.dead == []
  {
    ReplayVisitsOnce(cfg, world, s, msg);
  }

  /** A replay refreshes no credentials and keeps no records: it does not depend on what either
      would have answered, and its own record store stays empty. */
  lemma {:induction false} ReplayOnlySends(cfg: Config, world: World, other: World, s: State, msg: RawMessage)
    requires AlikeButFor(world, other)
    ensures Replay(cfg, world, s, msg) == Replay(cfg, other, s, msg)
    ensures Replay(cfg, world, s, msg).state.dead == []
  {
    var before := Counted(Fresh(s));
    ReplayVisitsOnce(cfg, world, s, msg);
    ReplayVisitsOnce(cfg, other, s, msg);
    assert SameAnswers(world(before.visits, msg), other(before.visits, msg));
    VisitsAlike(cfg, world, other, before, msg);
    ReplayKeepsNoRecord(cfg, world, s, msg);
  }

  // ---- What is rebuilt ----

  /** The bytes a record's text stands for, or the decoder's refusal of a malformed one. */
  predicate StandsFor(text: string, lenient: Lenient, raw: Answer<Bytes>) {
    if !Base64.WellFormed(text) then raw == lenient(text) else raw == Ok(Base64.Decode(text))
  }

  /** Any record is rebuilt, field for field, unless the decoder refuses its text. */
  lemma RebuildSays(record: DeadLetterRecord, lenient: Lenient)
    ensures match Rebuild(record, lenient)
            case Raise(failure) => StandsFor(record.rawB64, lenient, Raise(failure))
            case Ok(msg) =>
              && StandsFor(record.rawB64, lenient, Ok(msg.rawBytes))
              && msg.provider == record.provider && msg.providerMessageId == record.providerMessageId
              && msg.stream.mailbox == record.mailbox && msg.stream.folder == record.folder
              && msg.sizeBytes == record.sizeBytes && msg.receivedAt == record.receivedAt
              && msg.cursor.value == record.cursorValue && msg.cursor.order == record.cursorOrder
              && msg.threadKey == record.threadKey
  {
  }

  /** A record whose text the decoder refuses ends the redrive: it and all behind it are left. */
  lemma {:induction false} RefusedRecordStops(replay: Replayer, lenient: Lenient, pending: seq<DeadLetterRecord>,
                                              store: DeadLetters, s: State, report: RedriveReport, k: nat)
    requires k < |pending| && !Base64.WellFormed(pending[k].rawB64) && lenient(pending[k].rawB64).Raise?
    ensures var out := RedriveAll(replay, lenient, pending, store, s, report);
            out.escaped && |out.verdicts| <= k && out.report.examined <= report.examined + k + 1
    decreases |pending|
  {
    RebuildSays(pending[0], lenient);
    if k > 0 && Rebuild(pending[0], lenient).Ok? {
      var run := replay(s, Rebuild(pending[0], lenient).value);
      if !run.escaped {
        var gone := Resubmitted(run.state.report);
        RefusedRecordStops(replay, lenient, pending[1..], if gone then Without(store, pending[0].recordId) else store,
                           Fresh(run.state), Judged(report.(examined := report.examined + 1), run.state.report), k - 1);
      }
    }
  }
}
