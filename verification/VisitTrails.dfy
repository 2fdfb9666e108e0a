/** Every state a visit passes through: one for each call it makes to a store, a sink, the
    emitter or the report. */
module VisitTrails {
  import opened Models
  import opened Observability
  import opened MemoryStores
  import opened Delivery
  import opened Visits
  import FilterChain

  // ---- Trails ----

  /** The last of these states, or the one before them if there are none. */
  function End(s: State, trail: seq<State>): State {
    if trail == [] then s else trail[|trail| - 1]
  }

  /** One call: a change to this key's claim, to one log, to the dead letters, or to the report
      (which the trace's observer sees as well). */
  ghost predicate OneCall(s: State, t: State, key: string) {
    || (t == s.(claims := t.claims) && SameElsewhere(s.claims, t.claims, key))
    || (t == s.(emitted := t.emitted) && |t.emitted| == |s.emitted| + 1)
    || (t == s.(refused := t.refused) && |t.refused| == |s.refused| + 1)
    || (t == s.(dlqEvents := t.dlqEvents) && |t.dlqEvents| == |s.dlqEvents| + 1)
    || t == s.(dead := t.dead)
    || t == s.(report := t.report, observed := t.observed)
  }

  /** One call after the other. */
  ghost predicate CallByCall(s: State, trail: seq<State>, key: string)
    decreases |trail|
  {
    trail != [] ==> OneCall(s, trail[0], key) && CallByCall(trail[0], trail[1..], key)
  }

  /** The trail leads from one state to the other. */
  ghost predicate Leads(s: State, trail: seq<State>, t: State, key: string) {
    CallByCall(s, trail, key) && End(s, trail) == t
  }

  lemma {:induction false} LeadsOn(s: State, first: seq<State>, t: State, second: seq<State>, u: State, key: string)
    requires Leads(s, first, t, key) && Leads(t, second, u, key)
    ensures Leads(s, first + second, u, key)
    decreases |first|
  {
    if first == [] {
      assert first + second == second;
    } else {
      assert (first + second)[1..] == first[1..] + second;
      LeadsOn(first[0], first[1..], t, second, u, key);
    }
  }

  lemma OneLeads(s: State, t: State, key: string)
    requires OneCall(s, t, key)
    ensures Leads(s, [t], t, key)
  {
    assert [t][1..] == [];
  }

  lemma MoreLeads(s: State, t: State, trail: seq<State>, u: State, key: string)
    requires OneCall(s, t, key) && Leads(t, trail, u, key)
    ensures Leads(s, [t] + trail, u, key)
  {
    assert ([t] + trail)[1..] == trail;
  }

  /** No state on a trail moves a cursor or another key's claim. */
  lemma {:induction false} TrailKeeps(s: State, trail: seq<State>, key: string)
    requires CallByCall(s, trail, key)
    ensures forall t | t in trail :: t.cursors == s.cursors && SameElsewhere(s.claims, t.claims, key)
    decreases |trail|
  {
    if trail != [] {
      TrailKeeps(trail[0], trail[1..], key);
      assert trail == [trail[0]] + trail[1..];
    }
  }

  // ---- The pieces of a visit ----

  function StripsTrail(s: State, strips: seq<Strip>): seq<State>
    decreases |strips|
  {
    if strips == [] then []
    else
      var noted := s.(report := s.report.WithStrips([strips[0]]));
      [noted] + StripsTrail(noted, strips[1..])
  }

  lemma {:induction false} StripsLead(s: State, strips: seq<Strip>, key: string)
    ensures Leads(s, StripsTrail(s, strips), s.(report := s.report.WithStrips(strips)), key)
    decreases |strips|
  {
    if strips == [] {
      assert s.report.stripped + [] == s.report.stripped;
    } else {
      var noted := s.(report := s.report.WithStrips([strips[0]]));
      StripsLead(noted, strips[1..], key);
      assert s.report.stripped + [strips[0]] + strips[1..] == s.report.stripped + strips;
      MoreLeads(s, noted, StripsTrail(noted, strips[1..]), s.(report := s.report.WithStrips(strips)), key);
    }
  }

  /** Done, then traced. */
  function ClosingTrail(cfg: Config, s: State, key: string, now: Time, trace: Trace): seq<State> {
    var done := MarkedDone(cfg, s, key, now);
    [done] + [Traced(done, trace)]
  }

  lemma ClosingLeads(cfg: Config, s: State, key: string, now: Time, trace: Trace)
    ensures Leads(s, ClosingTrail(cfg, s, key, now, trace), Traced(MarkedDone(cfg, s, key, now), trace), key)
  {
    var done := MarkedDone(cfg, s, key, now);
    OneLeads(done, Traced(done, trace), key);
    MoreLeads(s, done, [Traced(done, trace)], Traced(done, trace), key);
  }

  function DeliverTrail(cfg: Config, work: Work, now: Time, s: State, msg: RawMessage, email: CleanEmail): seq<State> {
    var stripped := s.(report := s.report.WithStrips(email.content.stripped));
    var event := EventFor(cfg, msg, email);
    StripsTrail(s, email.content.stripped) +
    if work.emit.Raise? then [stripped.(refused := s.refused + [event])]
    else
      var sent := stripped.(emitted := s.emitted + [event]);
      [sent] + ClosingTrail(cfg, sent, KeyOf(cfg, msg), now, Trace(KeyOf(cfg, msg), Emitted, "emit", "", Unstated))
  }

  lemma DeliverLeads(cfg: Config, work: Work, now: Time, s: State, msg: RawMessage, email: CleanEmail)
    ensures Leads(s, DeliverTrail(cfg, work, now, s, msg, email), Deliver(cfg, work, now, s, msg, email).0,
                  KeyOf(cfg, msg))
  {
    var key, end := KeyOf(cfg, msg), Deliver(cfg, work, now, s, msg, email).0;
    var stripped, event := s.(report := s.report.WithStrips(email.content.stripped)), EventFor(cfg, msg, email);
    StripsLead(s, email.content.stripped, key);
    if work.emit.Raise? {
      OneLeads(stripped, end, key);
      LeadsOn(s, StripsTrail(s, email.content.stripped), stripped, [end], end, key);
    } else {
      var sent, trace := stripped.(emitted := s.emitted + [event]), Trace(key, Emitted, "emit", "", Unstated);
      var closing := ClosingTrail(cfg, sent, key, now, trace);
      ClosingLeads(cfg, sent, key, now, trace);
      MoreLeads(stripped, sent, closing, end, key);
      LeadsOn(s, StripsTrail(s, email.content.stripped), stripped, [sent] + closing, end, key);
    }
  }

  function WorkTrail(cfg: Config, work: Work, now: Time, s: State, msg: RawMessage): seq<State> {
    var key, verdict := KeyOf(cfg, msg), FilterChain.Run(work.verdicts);
    if work.parse.Raise? || verdict.Raise? then []
    else if verdict.value.decision == FilterChain.Drop && cfg.dropFiltered then
      ClosingTrail(cfg, s, key, now,
                   Trace(key, Dropped, "filter", verdict.value.filterName, Filtered(verdict.value.reason)))
    else
      var asks := cfg.classifies && verdict.value.decision == FilterChain.Uncertain;
      if (asks && work.classify.Raise?) || work.extract.Raise? then []
      else DeliverTrail(cfg, work, now, s, msg,
                        Stamped(work.extract.value, if asks then Some(work.classify.value) else None, verdict.value))
  }

  lemma {:induction false} WorkLeads(cfg: Config, work: Work, now: Time, s: State, msg: RawMessage)
    ensures Leads(s, WorkTrail(cfg, work, now, s, msg), DoWork(cfg, work, now, s, msg).0, KeyOf(cfg, msg))
  {
    var key, verdict := KeyOf(cfg, msg), FilterChain.Run(work.verdicts);
    if work.parse.Raise? || verdict.Raise? {
    } else if verdict.value.decision == FilterChain.Drop && cfg.dropFiltered {
      ClosingLeads(cfg, s, key, now,
                   Trace(key, Dropped, "filter", verdict.value.filterName, Filtered(verdict.value.reason)));
    } else {
      var asks := cfg.classifies && verdict.value.decision == FilterChain.Uncertain;
      if !(asks && work.classify.Raise?) && work.extract.Ok? {
        DeliverLeads(cfg, work, now, s, msg,
                     Stamped(work.extract.value, if asks then Some(work.classify.value) else None, verdict.value));
      }
    }
  }

  /** A dead letter sunk, and put in the durable store where there is one. */
  function Sunk(cfg: Config, s: State, msg: RawMessage): State {
    s.(dlqEvents := s.dlqEvents +
       [DlqEvent(cfg.tenant, msg.stream.mailbox, msg.providerMessageId, msg.stream.Key(), msg.sizeBytes)])
  }

  function Recorded(cfg: Config, v: Visit, s: State, msg: RawMessage, reason: Reason, attempts: nat): State {
    if cfg.durable then s.(dead := Put(s.dead, RecordFor(cfg, msg, reason, attempts, v.recordedAt))) else s
  }

  /** Done, then reported, then traced. */
  function SettlingTrail(cfg: Config, v: Visit, s: State, msg: RawMessage, reason: Reason): seq<State> {
    var key, done := KeyOf(cfg, msg), MarkedDone(cfg, s, KeyOf(cfg, msg), v.now);
    var told := done.(report := done.report.WithDeadLetter(DeadLetter(key, reason)));
    [done] + ([told] + [Traced(told, Trace(key, DeadLettered, "dlq", "", reason))])
  }

  function DeadLetterTrail(cfg: Config, v: Visit, s: State, msg: RawMessage, reason: Reason,
                           attempts: nat): seq<State> {
    if v.dlqEmit.Raise? then []
    else if cfg.durable && v.dlqPut.Raise? then [Sunk(cfg, s, msg)]
    else
      var kept := Recorded(cfg, v, Sunk(cfg, s, msg), msg, reason, attempts);
      [Sunk(cfg, s, msg)] + ((if cfg.durable then [kept] else []) + SettlingTrail(cfg, v, kept, msg, reason))
  }

  lemma SettlingLeads(cfg: Config, v: Visit, s: State, msg: RawMessage, reason: Reason)
    ensures var key, done := KeyOf(cfg, msg), MarkedDone(cfg, s, KeyOf(cfg, msg), v.now);
            Leads(s, SettlingTrail(cfg, v, s, msg, reason),
                  Traced(done.(report := done.report.WithDeadLetter(DeadLetter(key, reason))),
                         Trace(key, DeadLettered, "dlq", "", reason)), key)
  {
    var key, done := KeyOf(cfg, msg), MarkedDone(cfg, s, KeyOf(cfg, msg), v.now);
    var told := done.(report := done.report.WithDeadLetter(DeadLetter(key, reason)));
    var end := Traced(told, Trace(key, DeadLettered, "dlq", "", reason));
    OneLeads(told, end, key);
    MoreLeads(done, told, [end], end, key);
    MoreLeads(s, done, [told] + [end], end, key);
  }

  lemma {:induction false} DeadLetterLeads(cfg: Config, v: Visit, s: State, msg: RawMessage, reason: Reason,
                                           attempts: nat)
    ensures Leads(s, DeadLetterTrail(cfg, v, s, msg, reason, attempts),
                  DeadLettering(cfg, v, s, msg, reason, attempts).0, KeyOf(cfg, msg))
  {
    var key, end := KeyOf(cfg, msg), DeadLettering(cfg, v, s, msg, reason, attempts).0;
    if v.dlqEmit.Ok? {
      var sunk := Sunk(cfg, s, msg);
      OneLeads(s, sunk, key);
      if !(cfg.durable && v.dlqPut.Raise?) {
        var kept := Recorded(cfg, v, sunk, msg, reason, attempts);
        var settling := SettlingTrail(cfg, v, kept, msg, reason);
        SettlingLeads(cfg, v, kept, msg, reason);
        if cfg.durable {
          MoreLeads(sunk, kept, settling, end, key);
          MoreLeads(s, sunk, [kept] + settling, end, key);
        } else {
          assert [] + settling == settling;
          MoreLeads(s, sunk, settling, end, key);
        }
      }
    }
  }

  function RefreshTrail(cfg: Config, v: Visit, s: State, msg: RawMessage): seq<State> {
    if cfg.refreshes && v.refresh.Raise? then []
    else
      var (worked, end) := DoWork(cfg, v.second, v.now, s, msg);
      WorkTrail(cfg, v.second, v.now, s, msg) +
      if end.Completed? then [] else DeadLetterTrail(cfg, v, worked, msg, AuthRetryFailed(Auth, end.failure), 1)
  }

  lemma {:induction false} RefreshLeads(cfg: Config, v: Visit, s: State, msg: RawMessage)
    ensures Leads(s, RefreshTrail(cfg, v, s, msg), RefreshAndRetryOnce(cfg, v, s, msg).0, KeyOf(cfg, msg))
  {
    if !(cfg.refreshes && v.refresh.Raise?) {
      var key, work := KeyOf(cfg, msg), WorkTrail(cfg, v.second, v.now, s, msg);
      var (worked, end) := DoWork(cfg, v.second, v.now, s, msg);
      WorkLeads(cfg, v.second, v.now, s, msg);
      if end.Completed? {
        assert work + [] == work;
      } else {
        var reason := AuthRetryFailed(Auth, end.failure);
        DeadLetterLeads(cfg, v, worked, msg, reason, 1);
        LeadsOn(s, work, worked, DeadLetterTrail(cfg, v, worked, msg, reason, 1),
                RefreshAndRetryOnce(cfg, v, s, msg).0, key);
      }
    }
  }

  function RetryTrail(cfg: Config, v: Visit, s: State, msg: RawMessage, attempts: nat): seq<State> {
    if cfg.maxAttempts <= attempts then DeadLetterTrail(cfg, v, s, msg, Failed(Transient), attempts)
    else [s.(claims := Released(s.claims, KeyOf(cfg, msg)))]
  }

  lemma {:induction false} RetryLeads(cfg: Config, v: Visit, s: State, msg: RawMessage, attempts: nat)
    ensures Leads(s, RetryTrail(cfg, v, s, msg, attempts), RetryOrDeadLetter(cfg, v, s, msg, attempts).0,
                  KeyOf(cfg, msg))
  {
    if cfg.maxAttempts <= attempts {
      DeadLetterLeads(cfg, v, s, msg, Failed(Transient), attempts);
    } else {
      OneLeads(s, s.(claims := Released(s.claims, KeyOf(cfg, msg))), KeyOf(cfg, msg));
    }
  }

  /** What follows the first work body. */
  function RoutedTrail(cfg: Config, v: Visit, s: State, msg: RawMessage, attempts: nat, end: WorkEnd): seq<State> {
    match end
    case Completed(_) => []
    case Failing(Permanent) => DeadLetterTrail(cfg, v, s, msg, Failed(Permanent), attempts)
    case Failing(Auth) => RefreshTrail(cfg, v, s, msg)
    case Failing(Transient) => RetryTrail(cfg, v, s, msg, attempts)
  }

  function AttemptTrail(cfg: Config, v: Visit, s: State, msg: RawMessage): seq<State> {
    var attempts := Attempts(s.claims, KeyOf(cfg, msg));
    if v.size.Raise? then []
    else
      var size := SizeOf(v.size.value, msg);
      if size <= 0 then DeadLetterTrail(cfg, v, s, msg, SizeUnknown(size), attempts)
      else if cfg.maxMessageBytes < size then
        DeadLetterTrail(cfg, v, s, msg, Oversized(size, cfg.maxMessageBytes), attempts)
      else
        var (worked, end) := DoWork(cfg, v.first, v.now, s, msg);
        WorkTrail(cfg, v.first, v.now, s, msg) + RoutedTrail(cfg, v, worked, msg, attempts, end)
  }

  /** The state once the first work body's end is routed. */
  function Routed(cfg: Config, v: Visit, s: State, msg: RawMessage, attempts: nat, end: WorkEnd): State {
    match end
    case Completed(_) => s
    case Failing(Permanent) => DeadLettering(cfg, v, s, msg, Failed(Permanent), attempts).0
    case Failing(Auth) => RefreshAndRetryOnce(cfg, v, s, msg).0
    case Failing(Transient) => RetryOrDeadLetter(cfg, v, s, msg, attempts).0
  }

  lemma {:induction false} RoutedLeads(cfg: Config, v: Visit, s: State, msg: RawMessage, attempts: nat, end: WorkEnd)
    ensures Leads(s, RoutedTrail(cfg, v, s, msg, attempts, end), Routed(cfg, v, s, msg, attempts, end),
                  KeyOf(cfg, msg))
  {
    match end
    case Completed(_) =>
    case Failing(Permanent) => DeadLetterLeads(cfg, v, s, msg, Failed(Permanent), attempts);
    case Failing(Auth) => RefreshLeads(cfg, v, s, msg);
    case Failing(Transient) => RetryLeads(cfg, v, s, msg, attempts);
  }

  lemma {:induction false} AttemptLeads(cfg: Config, v: Visit, s: State, msg: RawMessage)
    ensures Leads(s, AttemptTrail(cfg, v, s, msg), Attempt(cfg, v, s, msg).0, KeyOf(cfg, msg))
  {
    var attempts, size := Attempts(s.claims, KeyOf(cfg, msg)), if v.size.Ok? then SizeOf(v.size.value, msg) else 0;
    if v.size.Raise? {
    } else if size <= 0 {
      DeadLetterLeads(cfg, v, s, msg, SizeUnknown(size), attempts);
    } else if cfg.maxMessageBytes < size {
      DeadLetterLeads(cfg, v, s, msg, Oversized(size, cfg.maxMessageBytes), attempts);
    } else {
      var (worked, end) := DoWork(cfg, v.first, v.now, s, msg);
      WorkLeads(cfg, v.first, v.now, s, msg);
      RoutedLeads(cfg, v, worked, msg, attempts, end);
      assert Attempt(cfg, v, s, msg).0 == Routed(cfg, v, worked, msg, attempts, end);
      LeadsOn(s, WorkTrail(cfg, v.first, v.now, s, msg), worked, RoutedTrail(cfg, v, worked, msg, attempts, end),
              Routed(cfg, v, worked, msg, attempts, end), KeyOf(cfg, msg));
    }
  }

  /** Every state of one visit after it has begun. */
  function VisitTrail(cfg: Config, world: World, s: State, msg: RawMessage): seq<State> {
    var key, begun := KeyOf(cfg, msg), s.(visits := s.visits + 1);
    if !Claimable(s.claims, key) then [Traced(begun, Trace(key, Duplicate, "dedupe", "", Unstated))]
    else
      [begun.(claims := Claimed(s.claims, key))] +
      ([Entered(cfg, s, msg)] + AttemptTrail(cfg, world(s.visits, msg), Entered(cfg, s, msg), msg))
  }

  /** Winning the claim is one call, counting the attempt another. */
  lemma EntryLeads(cfg: Config, s: State, msg: RawMessage, trail: seq<State>, end: State)
    requires Claimable(s.claims, KeyOf(cfg, msg)) && Leads(Entered(cfg, s, msg), trail, end, KeyOf(cfg, msg))
    ensures var begun := s.(visits := s.visits + 1);
            Leads(begun, [begun.(claims := Claimed(s.claims, KeyOf(cfg, msg)))] + ([Entered(cfg, s, msg)] + trail), end,
                  KeyOf(cfg, msg))
  {
    var key, begun, entered := KeyOf(cfg, msg), s.(visits := s.visits + 1), Entered(cfg, s, msg);
    var claimed := begun.(claims := Claimed(s.claims, key));
    MoreLeads(claimed, entered, trail, end, key);
    MoreLeads(begun, claimed, [entered] + trail, end, key);
  }

  /** The trail of a visit goes call by call from its start to its end. */
  lemma {:induction false} VisitLeads(cfg: Config, world: World, s: State, msg: RawMessage)
    ensures Leads(s.(visits := s.visits + 1), VisitTrail(cfg, world, s, msg), Process(cfg, world, s, msg).0,
                  KeyOf(cfg, msg))
  {
    var key, end := KeyOf(cfg, msg), Process(cfg, world, s, msg).0;
    if Claimable(s.claims, key) {
      var v, entered := world(s.visits, msg), Entered(cfg, s, msg);
      AttemptLeads(cfg, v, entered, msg);
      assert Process(cfg, world, s, msg) == Attempt(cfg, v, entered, msg);
      EntryLeads(cfg, s, msg, AttemptTrail(cfg, v, entered, msg), end);
    } else {
      OneLeads(s.(visits := s.visits + 1), end, key);
    }
  }

  /** What any state inside a visit may differ in: no cursor has moved, no other key's claim,
      and nothing that was done is undone. */
  ghost predicate Passes(cfg: Config, s: State, msg: RawMessage, t: State) {
    t.cursors == s.cursors && SameElsewhere(s.claims, t.claims, KeyOf(cfg, msg))
    && (!Claimable(s.claims, KeyOf(cfg, msg)) ==> t.claims == s.claims)
  }

  lemma {:induction false} VisitPasses(cfg: Config, world: World, s: State, msg: RawMessage)
    ensures forall t | t in VisitTrail(cfg, world, s, msg) :: Passes(cfg, s, msg, t)
  {
    VisitLeads(cfg, world, s, msg);
    TrailKeeps(s.(visits := s.visits + 1), VisitTrail(cfg, world, s, msg), KeyOf(cfg, msg));
  }
}
