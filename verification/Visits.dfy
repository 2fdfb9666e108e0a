/** What one visit to a message may change, whatever the outside world answers. */
module Visits {
  import opened Models
  import opened Observability
  import opened MemoryStores
  import opened Delivery
  import FilterChain

  /** No claim but this key's differs. */
  ghost predicate SameElsewhere(before: Claims, after: Claims, key: string) {
    forall k | k != key :: (k in after <==> k in before) && (k in before ==> after[k] == before[k])
  }

  /** The report stays consistent and gains exactly the given traces. */
  ghost predicate ReportGains(before: Report, after: Report, traces: seq<Trace>) {
    && after.fetched == before.fetched
    && after.traces == before.traces + traces
    && (Consistent(before) ==> Consistent(after))
  }

  /** The traces a step leaves behind: one if it is terminal, else none. */
  ghost predicate TracesOf(key: string, step: Step, traces: seq<Trace>) {
    if step.Terminal? then |traces| == 1 && traces[0].key == key && traces[0].disposition == step.disposition
    else traces == []
  }

  /** The claim on the visited message, before and after. */
  ghost predicate ClaimMoves(cfg: Config, before: Claims, after: Claims, key: string, step: Step) {
    && SameElsewhere(before, after, key)
    && (step == Terminal(Duplicate) <==> !Claimable(before, key))
    && (step == Terminal(Duplicate) ==> after == before)
    && (step != Terminal(Duplicate) ==> key in after && after[key].attempts == Attempts(before, key) + 1)
    && (step.Terminal? && step.disposition != Duplicate ==> after[key].done)
    && (step.Pending? ==> !after[key].done && !after[key].claimed && after[key].attempts < cfg.maxAttempts)
    && (step.Escaped? ==> !after[key].done && after[key].claimed)
  }

  /** The logs of delivered events and of durable dead letters. */
  ghost predicate LogsGrow(cfg: Config, s: State, t: State, msg: RawMessage, step: Step) {
    && (if step == Terminal(Emitted)
        then |t.emitted| == |s.emitted| + 1
          && t.emitted == s.emitted + [EventFor(cfg, msg, t.emitted[|s.emitted|].email)]
        else t.emitted == s.emitted)
    && (if step == Terminal(DeadLettered) && cfg.durable
        then exists reason, attempts, now :: t.dead == Put(s.dead, RecordFor(cfg, msg, reason, attempts, now))
        else t.dead == s.dead)
  }

  ghost predicate Visited(cfg: Config, s: State, msg: RawMessage, t: State, step: Step) {
    && t.cursors == s.cursors
    && t.visits == s.visits + 1
    && ClaimMoves(cfg, s.claims, t.claims, KeyOf(cfg, msg), step)
    && LogsGrow(cfg, s, t, msg, step)
    && exists traces :: TracesOf(KeyOf(cfg, msg), step, traces)
                        && t.observed == s.observed + traces && ReportGains(s.report, t.report, traces)
  }

  // ---- The pieces of a visit, from the inside out ----

  /** A state inside a visit: the claim is held and one attempt is on record. */
  ghost predicate Inside(cfg: Config, s: State, msg: RawMessage, t: State) {
    var key := KeyOf(cfg, msg);
    && t.cursors == s.cursors && t.visits == s.visits + 1
    && SameElsewhere(s.claims, t.claims, key) && Claimable(s.claims, key)
    && key in t.claims && t.claims[key].claimed && !t.claims[key].done
    && t.claims[key].attempts == Attempts(s.claims, key) + 1
    && t.emitted == s.emitted && t.dead == s.dead && t.observed == s.observed
    && ReportGains(s.report, t.report, [])
  }

  lemma TraceIsCounted(r: Report, trace: Trace)
    requires trace.disposition != DeadLettered
    ensures ReportGains(r, r.WithTrace(trace), [trace])
  {
    CountAppend(r.traces, trace);
  }

  lemma DeadLetterIsCounted(r: Report, letter: DeadLetter, trace: Trace)
    requires trace.disposition == DeadLettered
    ensures ReportGains(r, r.WithDeadLetter(letter).WithTrace(trace), [trace])
  {
    CountAppend(r.traces, trace);
  }

  lemma GainsCompose(r0: Report, r1: Report, r2: Report, traces: seq<Trace>)
    requires ReportGains(r0, r1, []) && ReportGains(r1, r2, traces)
    ensures ReportGains(r0, r2, traces)
  {
  }

  /** Closing a visit with a trace that is neither a duplicate's nor a dead letter's. */
  lemma CloseWithTrace(cfg: Config, s: State, msg: RawMessage, t: State, now: Time, trace: Trace)
    requires Inside(cfg, s, msg, t)
    requires trace.key == KeyOf(cfg, msg) && trace.disposition == Dropped
    ensures Visited(cfg, s, msg, Traced(MarkedDone(cfg, t, KeyOf(cfg, msg), now), trace), Terminal(Dropped))
  {
    var end := Traced(MarkedDone(cfg, t, KeyOf(cfg, msg), now), trace);
    TraceIsCounted(t.report, trace);
    GainsCompose(s.report, t.report, end.report, [trace]);
    assert TracesOf(KeyOf(cfg, msg), Terminal(Dropped), [trace]);
  }

  lemma CloseWithEvent(cfg: Config, s: State, msg: RawMessage, t: State, now: Time, email: CleanEmail, trace: Trace)
    requires Inside(cfg, s, msg, t)
    requires trace.key == KeyOf(cfg, msg) && trace.disposition == Emitted
    ensures Visited(cfg, s, msg,
                    Traced(MarkedDone(cfg, t.(emitted := t.emitted + [EventFor(cfg, msg, email)]), KeyOf(cfg, msg),
                                      now), trace),
                    Terminal(Emitted))
  {
    var end := Traced(MarkedDone(cfg, t.(emitted := t.emitted + [EventFor(cfg, msg, email)]), KeyOf(cfg, msg), now),
                      trace);
    TraceIsCounted(t.report, trace);
    GainsCompose(s.report, t.report, end.report, [trace]);
    assert TracesOf(KeyOf(cfg, msg), Terminal(Emitted), [trace]);
    assert end.emitted[|s.emitted|].email == email;
  }

  lemma StripsStayInside(cfg: Config, s: State, msg: RawMessage, t: State, strips: seq<Strip>)
    requires Inside(cfg, s, msg, t)
    ensures Inside(cfg, s, msg, t.(report := t.report.WithStrips(strips)))
  {
  }

  lemma {:induction false} WorkFromInside(cfg: Config, work: Work, now: Time, s: State, msg: RawMessage, t: State)
    requires Inside(cfg, s, msg, t)
    ensures var (u, end) := DoWork(cfg, work, now, t, msg);
            match end
            case Completed(d) => Visited(cfg, s, msg, u, Terminal(d))
            case Failing(_) => Inside(cfg, s, msg, u)
  {
    var verdict := FilterChain.Run(work.verdicts);
    if work.parse.Raise? || verdict.Raise? {
    } else if verdict.value.decision == FilterChain.Drop && cfg.dropFiltered {
      CloseWithTrace(cfg, s, msg, t, now,
        Trace(KeyOf(cfg, msg), Dropped, "filter", verdict.value.filterName, Filtered(verdict.value.reason)));
    } else {
      var asks := cfg.classifies && verdict.value.decision == FilterChain.Uncertain;
      if !(asks && work.classify.Raise?) && work.extract.Ok? {
        var email := Stamped(work.extract.value, if asks then Some(work.classify.value) else None, verdict.value);
        var stripped := t.(report := t.report.WithStrips(email.content.stripped));
        StripsStayInside(cfg, s, msg, t, email.content.stripped);
        if work.emit.Ok? {
          CloseWithEvent(cfg, s, msg, stripped, now, email, Trace(KeyOf(cfg, msg), Emitted, "emit", "", Unstated));
        }
      }
    }
  }

  /** Dead-lettering either records, marks done and reports, or leaves the claim held. */
  lemma {:induction false} DeadLetterFromInside(
    cfg: Config, v: Visit, s: State, msg: RawMessage, t: State, reason: Reason, attempts: nat)
    requires Inside(cfg, s, msg, t)
    ensures var (u, step) := DeadLettering(cfg, v, t, msg, reason, attempts);
            step in {Escaped, Terminal(DeadLettered)} && Visited(cfg, s, msg, u, step)
  {
    var (u, step) := DeadLettering(cfg, v, t, msg, reason, attempts);
    var key := KeyOf(cfg, msg);
    if step.Escaped? {
      assert TracesOf(key, step, []);
      assert s.observed == s.observed + [];
    } else {
      var trace := Trace(key, DeadLettered, "dlq", "", reason);
      DeadLetterIsCounted(t.report, DeadLetter(key, reason), trace);
      GainsCompose(s.report, t.report, u.report, [trace]);
      assert TracesOf(key, step, [trace]);
    }
  }

  lemma {:induction false} RefreshFromInside(cfg: Config, v: Visit, s: State, msg: RawMessage, t: State)
    requires Inside(cfg, s, msg, t)
    ensures var (u, step) := RefreshAndRetryOnce(cfg, v, t, msg);
            !step.Pending? && Visited(cfg, s, msg, u, step)
  {
    if cfg.refreshes && v.refresh.Raise? {
      assert TracesOf(KeyOf(cfg, msg), Escaped, []);
      assert s.observed == s.observed + [];
    } else {
      WorkFromInside(cfg, v.second, v.now, s, msg, t);
      var (u, end) := DoWork(cfg, v.second, v.now, t, msg);
      if end.Failing? {
        DeadLetterFromInside(cfg, v, s, msg, u, AuthRetryFailed(Auth, end.failure), 1);
      }
    }
  }

  lemma {:induction false} RetryFromInside(cfg: Config, v: Visit, s: State, msg: RawMessage, t: State)
    requires Inside(cfg, s, msg, t)
    ensures var (u, step) := RetryOrDeadLetter(cfg, v, t, msg, Attempts(t.claims, KeyOf(cfg, msg)));
            Visited(cfg, s, msg, u, step)
  {
    var attempts := Attempts(t.claims, KeyOf(cfg, msg));
    if cfg.maxAttempts <= attempts {
      DeadLetterFromInside(cfg, v, s, msg, t, Failed(Transient), attempts);
    } else {
      assert TracesOf(KeyOf(cfg, msg), Pending, []);
      assert s.observed == s.observed + [];
    }
  }

  lemma {:induction false} AttemptFromInside(cfg: Config, v: Visit, s: State, msg: RawMessage, t: State)
    requires Inside(cfg, s, msg, t)
    ensures var (u, step) := Attempt(cfg, v, t, msg);
            Visited(cfg, s, msg, u, step)
  {
    var attempts := Attempts(t.claims, KeyOf(cfg, msg));
    if v.size.Raise? {
      assert TracesOf(KeyOf(cfg, msg), Escaped, []);
      assert s.observed == s.observed + [];
    } else {
      var size := SizeOf(v.size.value, msg);
      if size <= 0 {
        DeadLetterFromInside(cfg, v, s, msg, t, SizeUnknown(size), attempts);
      } else if cfg.maxMessageBytes < size {
        DeadLetterFromInside(cfg, v, s, msg, t, Oversized(size, cfg.maxMessageBytes), attempts);
      } else {
        WorkFromInside(cfg, v.first, v.now, s, msg, t);
        var (u, end) := DoWork(cfg, v.first, v.now, t, msg);
        match end
        case Completed(_) =>
        case Failing(Permanent) => DeadLetterFromInside(cfg, v, s, msg, u, Failed(Permanent), attempts);
        case Failing(Auth) => RefreshFromInside(cfg, v, s, msg, u);
        case Failing(Transient) => RetryFromInside(cfg, v, s, msg, u);
      }
    }
  }

  function Entered(cfg: Config, s: State, msg: RawMessage): State
    requires Claimable(s.claims, KeyOf(cfg, msg))
  {
    s.(visits := s.visits + 1).(claims := Attempted(Claimed(s.claims, KeyOf(cfg, msg)), KeyOf(cfg, msg)))
  }

  lemma ClaimEnters(cfg: Config, s: State, msg: RawMessage)
    requires Claimable(s.claims, KeyOf(cfg, msg))
    ensures Inside(cfg, s, msg, Entered(cfg, s, msg))
  {
    assert s.report.traces == s.report.traces + [];
  }

  lemma DuplicateIsVisited(cfg: Config, s: State, msg: RawMessage, trace: Trace)
    requires !Claimable(s.claims, KeyOf(cfg, msg))
    requires trace.key == KeyOf(cfg, msg) && trace.disposition == Duplicate
    ensures Visited(cfg, s, msg, Traced(s.(visits := s.visits + 1), trace), Terminal(Duplicate))
  {
    TraceIsCounted(s.report, trace);
    assert TracesOf(KeyOf(cfg, msg), Terminal(Duplicate), [trace]);
  }

  /** Every visit, whatever is answered: only the visited key's claim moves; a lost claim
      reports a duplicate and changes no claim; a won one counts an attempt and ends done
      with one trace, released below the attempt bound, or, on an escaping exception, held. */
  lemma EveryVisit(cfg: Config, world: World, s: State, msg: RawMessage)
    ensures var (t, step) := Process(cfg, world, s, msg);
            Visited(cfg, s, msg, t, step)
  {
    if Claimable(s.claims, KeyOf(cfg, msg)) {
      ClaimEnters(cfg, s, msg);
      AttemptFromInside(cfg, world(s.visits, msg), s, msg, Entered(cfg, s, msg));
      assert Process(cfg, world, s, msg) == Attempt(cfg, world(s.visits, msg), Entered(cfg, s, msg), msg);
    } else {
      DuplicateIsVisited(cfg, s, msg, Trace(KeyOf(cfg, msg), Duplicate, "dedupe", "", Unstated));
    }
  }
}
