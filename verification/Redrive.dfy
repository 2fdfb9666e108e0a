/** Redrive: dead letters are rebuilt into the messages they came from and replayed, each
    through a pipeline of its own, with fresh claims and cursors but the real emitters. */
module Redrive {
  import opened Models
  import opened Observability
  import opened MemoryStores
  import opened Delivery
  import opened Visits
  import opened Runs
  import opened Pipelines
  import opened Scenarios
  import Base64
  import opened Streaming
  import Identity

  // ---- Rebuilding ----

  function RawOf(text: string, lenient: Lenient): Answer<Bytes> {
    if text == "" then Ok([])
    else if Base64.WellFormed(text) then Ok(Base64.Decode(text))
    else lenient(text)
  }

  function Rebuild(record: DeadLetterRecord, lenient: Lenient): Answer<RawMessage> {
    var raw := RawOf(record.rawB64, lenient);
    if raw.Raise? then Raise(raw.failure)
    else Ok(RawMessage(record.provider, record.providerMessageId, StreamRef(record.mailbox, record.folder),
                       record.sizeBytes, record.receivedAt, Cursor(record.cursorValue, record.cursorOrder),
                       raw.value, record.threadKey))
  }

  /** A dead letter rebuilds into exactly the message it was made from, and that message's
      key under the same tenant is the record's id. */
  lemma {:induction false} DeadLetterRoundTrip(
    cfg: Config, msg: RawMessage, reason: Reason, attempts: nat, now: Time, lenient: Lenient)
    ensures var record := RecordFor(cfg, msg, reason, attempts, now);
            Rebuild(record, lenient) == Ok(msg) && KeyOf(cfg, msg) == record.recordId
  {
    Base64.RoundTrip(msg.rawBytes);
  }

  // ---- One replay ----

  /** The replaying pipeline refreshes no credentials and keeps no durable dead letters. */
  function Scoped(cfg: Config): Config {
    cfg.(refreshes := false, durable := false)
  }

  function Fresh(s: State): State {
    s.(claims := map[], cursors := map[], dead := [], report := EMPTY_REPORT)
  }

  function Replay(cfg: Config, world: World, s: State, msg: RawMessage): Run {
    RunOnce(Scoped(cfg), world, OneMessage(msg, false), Fresh(s))
  }

  /** How one message is replayed.  A redrive is defined for any replayer. */
  type Replayer = (State, RawMessage) -> Run

  function Replaying(cfg: Config, world: World): Replayer {
    (s: State, msg: RawMessage) => Replay(cfg, world, s, msg)
  }

  /** The test that decides whether a record is deleted. */
  predicate Resubmitted(report: Report) {
    report.fetched >= 1 && report.deadLettered == 0
  }

  /** A replay is one visit on fresh claims. */
  lemma ReplayVisitsOnce(cfg: Config, world: World, s: State, msg: RawMessage)
    ensures var run := Replay(cfg, world, s, msg);
            var (mid, step) := Process(Scoped(cfg), world, Counted(Fresh(s)), msg);
            && run == Run(Bookmarked(Scoped(cfg), mid, msg.stream, msg, step, false), [step], step.Escaped?)
            && Visited(Scoped(cfg), Counted(Fresh(s)), msg, mid, step)
  {
    var handle := Handling(Scoped(cfg), world);
    EveryVisit(Scoped(cfg), world, Counted(Fresh(s)), msg);
    OneMessageFeed(Scoped(cfg), handle, Fresh(s), msg, false);
    assert Fresh(s).(report := EMPTY_REPORT) == Fresh(s);
    assert handle(Counted(Fresh(s)), msg) == Process(Scoped(cfg), world, Counted(Fresh(s)), msg);
  }

  /** How a replay ends, and what its report makes of it. */
  ghost predicate Ends(cfg: Config, run: Run) {
    && |run.steps| == 1 && run.steps[0] != Terminal(Duplicate)
    && (run.escaped <==> run.steps[0].Escaped?)
    && (run.steps[0].Pending? ==> 1 < cfg.maxAttempts)
    && run.state.report.fetched == 1
    && run.state.report.Terminal() == (if run.steps[0].Terminal? then 1 else 0)
    && run.state.report.deadLettered == (if run.steps[0] == Terminal(DeadLettered) then 1 else 0)
    && run.state.report.duplicates == 0
  }

  lemma VisitEnds(cfg: Config, s: State, msg: RawMessage, mid: State, step: Step)
    requires Visited(Scoped(cfg), Counted(Fresh(s)), msg, mid, step)
    ensures Ends(cfg, Run(Bookmarked(Scoped(cfg), mid, msg.stream, msg, step, false), [step], step.Escaped?))
  {
    var before, traces := Counted(Fresh(s)).report, mid.report.traces;
    assert Consistent(before);
    TerminalIsTraced(mid.report);
    assert TracesOf(KeyOf(Scoped(cfg), msg), step, traces) by {
      var gained :| TracesOf(KeyOf(Scoped(cfg), msg), step, gained) && ReportGains(before, mid.report, gained);
      assert [] + gained == gained;
    }
    if step.Terminal? {
      assert traces == [] + [traces[0]];
      CountAppend([], traces[0]);
    }
  }

  lemma ReplayEnds(cfg: Config, world: World, s: State, msg: RawMessage)
    ensures Ends(cfg, Replay(cfg, world, s, msg))
  {
    ReplayVisitsOnce(cfg, world, s, msg);
    var (mid, step) := Process(Scoped(cfg), world, Counted(Fresh(s)), msg);
    VisitEnds(cfg, s, msg, mid, step);
  }

  ghost predicate Ending(cfg: Config, replay: Replayer) {
    forall s, msg :: Ends(cfg, replay(s, msg))
  }

  lemma ReplayingEnds(cfg: Config, world: World)
    ensures Ending(cfg, Replaying(cfg, world))
  {
    forall s, msg ensures Ends(cfg, Replaying(cfg, world)(s, msg)) {
      ReplayEnds(cfg, world, s, msg);
    }
  }

  // ---- All pending records ----

  datatype RedriveReport = RedriveReport(examined: nat, resubmitted: nat, stillDeadLettered: nat, run: Report)

  const NOTHING_YET := RedriveReport(0, 0, 0, EMPTY_REPORT)

  /** Adds a finished report to the running one; strips are left out. */
  function Accumulated(into: Report, part: Report): Report {
    into.(fetched := into.fetched + part.fetched, emitted := into.emitted + part.emitted,
          dropped := into.dropped + part.dropped, duplicates := into.duplicates + part.duplicates,
          deadLettered := into.deadLettered + part.deadLettered,
          traces := into.traces + part.traces, dlq := into.dlq + part.dlq)
  }

  /** `verdicts` says of each replayed record whether it was deleted. */
  datatype Redriven = Redriven(store: DeadLetters, sent: State, report: RedriveReport, verdicts: seq<bool>,
                               escaped: bool)

  function Judged(report: RedriveReport, part: Report): RedriveReport {
    var merged := report.(run := Accumulated(report.run, part));
    if Resubmitted(part) then merged.(resubmitted := merged.resubmitted + 1)
    else merged.(stillDeadLettered := merged.stillDeadLettered + 1)
  }

  function RedriveAll(replay: Replayer, lenient: Lenient, pending: seq<DeadLetterRecord>,
                      store: DeadLetters, s: State, report: RedriveReport): Redriven
    decreases |pending|
  {
    if pending == [] then Redriven(store, s, report, [], false)
    else
      var msg, begun := Rebuild(pending[0], lenient), report.(examined := report.examined + 1);
      if msg.Raise? then Redriven(store, s, begun, [], true)
      else
        var run := replay(s, msg.value);
        if run.escaped then Redriven(store, Fresh(run.state), begun, [], true)
        else
          var gone := Resubmitted(run.state.report);
          var rest := RedriveAll(replay, lenient, pending[1..],
                                 if gone then Without(store, pending[0].recordId) else store,
                                 Fresh(run.state), Judged(begun, run.state.report));
          rest.(verdicts := [gone] + rest.verdicts)
  }

  /** What the real emitters were sent. */
  ghost function Sent(sinks: Outside): State
    reads sinks
  {
    State(map[], map[], map[], [], sinks.emitted, sinks.refused, sinks.dlqEvents, sinks.observed, sinks.visits,
          EMPTY_REPORT)
  }

  method Redrive(store: InMemoryDeadLetterStore, sinks: Outside, cfg: Config, lenient: Lenient, limit: Option<nat>)
    returns (report: RedriveReport, escaped: bool)
    requires store.Valid()
    modifies store, sinks
    ensures store.Valid()
    ensures var out := RedriveAll(Replaying(cfg, sinks.world), lenient, MemoryStores.Pending(old(store.records), limit),
                                  old(store.records), old(Sent(sinks)), NOTHING_YET);
            store.records == out.store && Sent(sinks) == out.sent && report == out.report && escaped == out.escaped
  {
    var pending := store.ListPending(limit);
    ghost var whole := RedriveAll(Replaying(cfg, sinks.world), lenient, pending, store.records, Sent(sinks),
                                  NOTHING_YET);
    report := NOTHING_YET;
    var i := 0;
    assert pending[0..] == pending;
    while i < |pending|
      invariant i <= |pending| && store.Valid()
      invariant var left := RedriveAll(Replaying(cfg, sinks.world), lenient, pending[i..], store.records, Sent(sinks),
                                       report);
                whole.store == left.store && whole.sent == left.sent && whole.report == left.report
                  && whole.escaped == left.escaped
    {
      assert pending[i..][0] == pending[i] && pending[i..][1..] == pending[i + 1..];
      report := report.(examined := report.examined + 1);
      var msg := Rebuild(pending[i], lenient);
      if msg.Raise? {
        return report, true;
      }
      var run, stopped := ReplayOne(sinks, cfg, msg.value);
      if stopped {
        return report, true;
      }
      if Resubmitted(run) {
        WithoutRemoves(store.records, pending[i].recordId);
        store.Delete(pending[i].recordId);
      }
      report := Judged(report, run);
      i := i + 1;
    }
    escaped := false;
  }

  /** A pipeline for one message, with stores of its own. */
  method ReplayOne(sinks: Outside, cfg: Config, msg: RawMessage) returns (report: Report, escaped: bool)
    modifies sinks
    ensures var run := Replay(cfg, sinks.world, old(Sent(sinks)), msg);
            Sent(sinks) == Fresh(run.state) && report == run.state.report && escaped == run.escaped
  {
    var cursorStore := new InMemoryCursorStore();
    var dedupeStore := new InMemoryDedupeStore();
    var unused := new InMemoryDeadLetterStore();
    var pipeline := new Pipeline(Scoped(cfg), cursorStore, dedupeStore, unused, sinks);
    assert pipeline.StateWith(EMPTY_REPORT) == Fresh(Sent(sinks));
    var run, stopped := pipeline.RunOnce(OneMessage(msg, false));
    assert pipeline.Snap(run) == Replay(cfg, sinks.world, old(Sent(sinks)), msg).state;
    report, escaped := run.View(), stopped;
  }

  // ---- Accounting ----

  function Trues(verdicts: seq<bool>): nat {
    if verdicts == [] then 0 else (if verdicts[0] then 1 else 0) + Trues(verdicts[1..])
  }

  /** From one report to a later one over these verdicts. */
  ghost predicate Tallied(before: RedriveReport, after: RedriveReport, verdicts: seq<bool>, escaped: bool) {
    && after.examined == before.examined + |verdicts| + (if escaped then 1 else 0)
    && after.resubmitted == before.resubmitted + Trues(verdicts)
    && after.stillDeadLettered == before.stillDeadLettered + |verdicts| - Trues(verdicts)
    && after.run.fetched == before.run.fetched + |verdicts|
    && after.run.deadLettered == before.run.deadLettered + |verdicts| - Trues(verdicts)
    && after.run.duplicates == before.run.duplicates
    && after.run.stripped == before.run.stripped && after.run.attachmentsStripped == before.run.attachmentsStripped
  }

  lemma ReplayTallies(cfg: Config, run: Run, report: RedriveReport)
    requires Ends(cfg, run)
    ensures var begun := report.(examined := report.examined + 1);
            Tallied(report, Judged(begun, run.state.report), [Resubmitted(run.state.report)], false)
  {
    assert Trues([Resubmitted(run.state.report)][1..]) == 0;
  }

  lemma TalliesCompose(r0: RedriveReport, r1: RedriveReport, r2: RedriveReport, gone: bool, rest: seq<bool>,
                       escaped: bool)
    requires Tallied(r0, r1, [gone], false) && Tallied(r1, r2, rest, escaped)
    ensures Tallied(r0, r2, [gone] + rest, escaped)
  {
    assert ([gone] + rest)[1..] == rest && [gone][1..] == [];
    assert Trues([gone]) == if gone then 1 else 0;
  }

  lemma {:induction false} RedriveTallies(cfg: Config, replay: Replayer, lenient: Lenient,
                                          pending: seq<DeadLetterRecord>,
                                          store: DeadLetters, s: State, report: RedriveReport)
    requires Ending(cfg, replay)
    ensures var out := RedriveAll(replay, lenient, pending, store, s, report);
            Tallied(report, out.report, out.verdicts, out.escaped)
            && (if out.escaped then |out.verdicts| < |pending| else |out.verdicts| == |pending|)
    decreases |pending|
  {
    if pending != [] && Rebuild(pending[0], lenient).Ok? {
      var msg, begun := Rebuild(pending[0], lenient).value, report.(examined := report.examined + 1);
      var run := replay(s, msg);
      if !run.escaped {
        var gone, judged := Resubmitted(run.state.report), Judged(begun, run.state.report);
        var kept := if gone then Without(store, pending[0].recordId) else store;
        ReplayTallies(cfg, run, report);
        RedriveTallies(cfg, replay, lenient, pending[1..], kept, Fresh(run.state), judged);
        var rest := RedriveAll(replay, lenient, pending[1..], kept, Fresh(run.state), judged);
        TalliesCompose(report, judged, rest.report, gone, rest.verdicts, rest.escaped);
      }
    }
  }

  /** Every examined record is either resubmitted or kept, each is fetched once, nothing is
      a duplicate, and strips never reach the merged report. */
  lemma RedriveAccounts(
    cfg: Config, world: World, lenient: Lenient, pending: seq<DeadLetterRecord>, store: DeadLetters, s: State)
    ensures var out := RedriveAll(Replaying(cfg, world), lenient, pending, store, s, NOTHING_YET);
            && (!out.escaped ==>
                  out.report.examined == |pending| == out.report.resubmitted + out.report.stillDeadLettered
                      == out.report.run.fetched)
            && (out.escaped ==> out.report.examined == out.report.resubmitted + out.report.stillDeadLettered + 1)
            && out.report.stillDeadLettered == out.report.run.deadLettered
            && out.report.run.duplicates == 0 && out.report.run.attachmentsStripped == 0
  {
    ReplayingEnds(cfg, world);
    RedriveTallies(cfg, Replaying(cfg, world), lenient, pending, store, s, NOTHING_YET);
  }

  // ---- What is left in the store ----

  /** The records not deleted; those past the last verdict were never reached. */
  function Kept(pending: seq<DeadLetterRecord>, verdicts: seq<bool>): seq<DeadLetterRecord> {
    if pending == [] || verdicts == [] then pending
    else (if verdicts[0] then [] else [pending[0]]) + Kept(pending[1..], verdicts[1..])
  }

  lemma {:induction false} WithoutJoins(left: DeadLetters, right: DeadLetters, id: string)
    ensures Without(left + right, id) == Without(left, id) + Without(right, id)
  {
    if left == [] {
      assert left + right == right;
    } else {
      assert (left + right)[1..] == left[1..] + right;
      WithoutJoins(left[1..], right, id);
    }
  }

  lemma {:induction false} DistinctSplits(left: DeadLetters, record: DeadLetterRecord, right: DeadLetters)
    requires DistinctIds(left + [record] + right)
    ensures !Holds(left, record.recordId) && !Holds(right, record.recordId)
    ensures DistinctIds(left + right)
  {
    var all := left + [record] + right;
    if left == [] {
      assert all[0] == record && all[1..] == right && left + right == right;
    } else {
      assert all[0] == left[0] && all[1..] == left[1..] + [record] + right;
      DistinctSplits(left[1..], record, right);
      HoldsJoins(left[1..] + [record], right, left[0].recordId);
      HoldsJoins(left[1..], [record], left[0].recordId);
      HoldsJoins(left[1..], right, left[0].recordId);
      assert (left + right)[1..] == left[1..] + right;
    }
  }

  lemma {:induction false} HoldsJoins(left: DeadLetters, right: DeadLetters, id: string)
    ensures Holds(left + right, id) <==> Holds(left, id) || Holds(right, id)
  {
    if left == [] {
      assert left + right == right;
    } else {
      assert (left + right)[1..] == left[1..] + right;
      HoldsJoins(left[1..], right, id);
    }
  }

  lemma DeletesTheMiddle(left: DeadLetters, record: DeadLetterRecord, right: DeadLetters)
    requires DistinctIds(left + [record] + right)
    ensures Without(left + [record] + right, record.recordId) == left + right && DistinctIds(left + right)
  {
    DistinctSplits(left, record, right);
    WithoutJoins(left + [record], right, record.recordId);
    WithoutSnoc(left, record, record.recordId);
    WithoutRemoves(left, record.recordId);
    WithoutRemoves(right, record.recordId);
  }

  lemma JudgedMiddle(settled: DeadLetters, pending: DeadLetters, unlisted: DeadLetters, gone: bool)
    requires pending != [] && DistinctIds(settled + pending + unlisted)
    ensures var settled' := if gone then settled else settled + [pending[0]];
            var store := settled + pending + unlisted;
            (if gone then Without(store, pending[0].recordId) else store) == settled' + pending[1..] + unlisted
            && DistinctIds(settled' + pending[1..] + unlisted)
  {
    var right := pending[1..] + unlisted;
    assert settled + pending + unlisted == settled + [pending[0]] + right;
    assert settled + pending[1..] + unlisted == settled + right;
    DeletesTheMiddle(settled, pending[0], right);
  }

  lemma KeptJudged(settled: DeadLetters, pending: DeadLetters, gone: bool, verdicts: seq<bool>)
    requires pending != []
    ensures var settled' := if gone then settled else settled + [pending[0]];
            settled' + Kept(pending[1..], verdicts) == settled + Kept(pending, [gone] + verdicts)
  {
    assert ([gone] + verdicts)[1..] == verdicts;
  }

  /** The store afterwards is the store before, in its order, less exactly the resubmitted
      records; the kept ones and those beyond the listing are as they were. */
  lemma {:induction false} StoreLosesTheResubmitted(
    replay: Replayer, lenient: Lenient, settled: DeadLetters, pending: seq<DeadLetterRecord>, unlisted: DeadLetters,
    s: State, report: RedriveReport)
    requires DistinctIds(settled + pending + unlisted)
    ensures var out := RedriveAll(replay, lenient, pending, settled + pending + unlisted, s, report);
            out.store == settled + Kept(pending, out.verdicts) + unlisted
    decreases |pending|
  {
    if pending != [] && Rebuild(pending[0], lenient).Ok? {
      var msg, begun := Rebuild(pending[0], lenient).value, report.(examined := report.examined + 1);
      var run := replay(s, msg);
      if !run.escaped {
        var gone, judged := Resubmitted(run.state.report), Judged(begun, run.state.report);
        JudgedMiddle(settled, pending, unlisted, gone);
        var settled' := if gone then settled else settled + [pending[0]];
        StoreLosesTheResubmitted(replay, lenient, settled', pending[1..], unlisted, Fresh(run.state), judged);
        var rest := RedriveAll(replay, lenient, pending[1..], settled' + pending[1..] + unlisted, Fresh(run.state),
                               judged);
        KeptJudged(settled, pending, gone, rest.verdicts);
      }
    }
  }

  /** With a limit, as many records are listed, and the store keeps the others as they are,
      behind whatever it keeps of the listed ones. */
  lemma {:induction false} RedriveWithinLimit(replay: Replayer, lenient: Lenient, store: DeadLetters,
                                              limit: Option<nat>, s: State)
    requires DistinctIds(store)
    ensures var pending := MemoryStores.Pending(store, limit);
            var out := RedriveAll(replay, lenient, pending, store, s, NOTHING_YET);
            && |pending| == (if limit.Some? && limit.value < |store| then limit.value else |store|)
            && out.store == Kept(store[..|pending|], out.verdicts) + store[|pending|..]
  {
    var pending := MemoryStores.Pending(store, limit);
    var rest := store[|pending|..];
    assert store == [] + pending + rest && pending == store[..|pending|];
    StoreLosesTheResubmitted(replay, lenient, [], pending, rest, s, NOTHING_YET);
    var verdicts := RedriveAll(replay, lenient, pending, store, s, NOTHING_YET).verdicts;
    assert [] + Kept(pending, verdicts) == Kept(pending, verdicts);
  }

  // ---- What a deletion means ----

  ghost predicate LogsExtend(before: State, after: State) {
    before.emitted <= after.emitted && before.observed <= after.observed
  }

  /** Since `before`, an event with this key was emitted, or the message was filtered out. */
  ghost predicate Delivered(before: State, after: State, key: string) {
    || (exists i | |before.emitted| <= i < |after.emitted| :: after.emitted[i].idempotencyKey == key)
    || (exists i | |before.observed| <= i < |after.observed| ::
          after.observed[i].key == key && after.observed[i].disposition == Dropped)
  }

  /** What a replay that was judged resubmitted has done for its message. */
  ghost predicate Honest(cfg: Config, s: State, msg: RawMessage, run: Run) {
    LogsExtend(s, run.state)
    && (!run.escaped && Resubmitted(run.state.report) ==>
          Delivered(s, run.state, KeyOf(cfg, msg)) || run.steps == [Step.Pending])
    && (run.steps == [Step.Pending] ==> 1 < cfg.maxAttempts)
  }

  lemma VisitDelivers(cfg: Config, s: State, msg: RawMessage, mid: State, step: Step)
    requires Visited(Scoped(cfg), Counted(Fresh(s)), msg, mid, step)
    ensures LogsExtend(s, mid)
    ensures step in {Terminal(Emitted), Terminal(Dropped)} ==> Delivered(s, mid, KeyOf(cfg, msg))
  {
    var traces :| TracesOf(KeyOf(cfg, msg), step, traces) && mid.observed == s.observed + traces;
    if step == Terminal(Emitted) {
      assert mid.emitted[|s.emitted|].idempotencyKey == KeyOf(cfg, msg);
    } else if step == Terminal(Dropped) {
      assert mid.observed[|s.observed|] == traces[0];
    }
  }

  lemma VisitIsHonest(cfg: Config, s: State, msg: RawMessage, mid: State, step: Step)
    requires Visited(Scoped(cfg), Counted(Fresh(s)), msg, mid, step)
    ensures Honest(cfg, s, msg, Run(Bookmarked(Scoped(cfg), mid, msg.stream, msg, step, false), [step], step.Escaped?))
  {
    var run := Run(Bookmarked(Scoped(cfg), mid, msg.stream, msg, step, false), [step], step.Escaped?);
    VisitEnds(cfg, s, msg, mid, step);
    VisitDelivers(cfg, s, msg, mid, step);
    DeliveredAlike(s, mid, run.state, KeyOf(cfg, msg));
    if !run.escaped && Resubmitted(run.state.report) {
      ResubmittedEnds(cfg, run);
    }
  }

  lemma DeliveredAlike(s: State, t: State, u: State, key: string)
    requires u.emitted == t.emitted && u.observed == t.observed
    ensures Delivered(s, t, key) <==> Delivered(s, u, key)
  {
  }

  /** A replay judged resubmitted was delivered, dropped or left pending. */
  lemma ResubmittedEnds(cfg: Config, run: Run)
    requires Ends(cfg, run) && !run.escaped && Resubmitted(run.state.report)
    ensures run.steps[0] in {Step.Pending, Terminal(Emitted), Terminal(Dropped)}
  {
    match run.steps[0]
    case Terminal(Emitted) =>
    case Terminal(Dropped) =>
    case _ =>
  }

  ghost predicate HonestReplayer(cfg: Config, replay: Replayer) {
    forall s, msg :: Honest(cfg, s, msg, replay(s, msg))
  }

  lemma ReplayingIsHonest(cfg: Config, world: World)
    ensures HonestReplayer(cfg, Replaying(cfg, world))
  {
    forall s, msg ensures Honest(cfg, s, msg, Replaying(cfg, world)(s, msg)) {
      ReplayVisitsOnce(cfg, world, s, msg);
      var (mid, step) := Process(Scoped(cfg), world, Counted(Fresh(s)), msg);
      VisitIsHonest(cfg, s, msg, mid, step);
    }
  }

  /** The record was made under this tenant. */
  predicate MadeUnder(cfg: Config, record: DeadLetterRecord) {
    record.recordId == Identity.IdempotencyKey(cfg.tenant, record.mailbox, record.providerMessageId)
  }

  ghost predicate AllDelivered(before: State, after: State, pending: seq<DeadLetterRecord>, verdicts: seq<bool>) {
    |verdicts| <= |pending|
    && forall i | 0 <= i < |verdicts| && verdicts[i] :: Delivered(before, after, pending[i].recordId)
  }

  lemma DeliveriesCompose(s0: State, s1: State, s2: State, pending: seq<DeadLetterRecord>, gone: bool, rest: seq<bool>)
    requires pending != [] && LogsExtend(s0, s1) && LogsExtend(s1, s2)
    requires gone ==> Delivered(s0, s1, pending[0].recordId)
    requires AllDelivered(s1, s2, pending[1..], rest)
    ensures LogsExtend(s0, s2) && AllDelivered(s0, s2, pending, [gone] + rest)
  {
    forall i | 0 <= i < |rest| + 1 && ([gone] + rest)[i] ensures Delivered(s0, s2, pending[i].recordId) {
      if i > 0 {
        assert pending[i] == pending[1..][i - 1];
        assert Delivered(s1, s2, pending[i].recordId);
      }
    }
  }

  lemma HonestDelivers(cfg: Config, s: State, record: DeadLetterRecord, lenient: Lenient, run: Run)
    requires cfg.maxAttempts <= 1 && MadeUnder(cfg, record) && Rebuild(record, lenient).Ok?
    requires Honest(cfg, s, Rebuild(record, lenient).value, run)
    ensures LogsExtend(s, Fresh(run.state))
    ensures !run.escaped && Resubmitted(run.state.report) ==> Delivered(s, Fresh(run.state), record.recordId)
  {
  }

  lemma {:induction false} HonestRedrive(cfg: Config, replay: Replayer, lenient: Lenient,
                                         pending: seq<DeadLetterRecord>,
                                         store: DeadLetters, s: State, report: RedriveReport)
    requires HonestReplayer(cfg, replay) && cfg.maxAttempts <= 1
    requires forall record | record in pending :: MadeUnder(cfg, record)
    ensures var out := RedriveAll(replay, lenient, pending, store, s, report);
            LogsExtend(s, out.sent) && AllDelivered(s, out.sent, pending, out.verdicts)
    decreases |pending|
  {
    if pending != [] && Rebuild(pending[0], lenient).Ok? {
      var msg, begun := Rebuild(pending[0], lenient).value, report.(examined := report.examined + 1);
      var run := replay(s, msg);
      assert pending[0] in pending && forall record | record in pending[1..] :: record in pending;
      assert Honest(cfg, s, msg, run);
      HonestDelivers(cfg, s, pending[0], lenient, run);
      if !run.escaped {
        var gone, judged := Resubmitted(run.state.report), Judged(begun, run.state.report);
        var kept := if gone then Without(store, pending[0].recordId) else store;
        HonestRedrive(cfg, replay, lenient, pending[1..], kept, Fresh(run.state), judged);
        var rest := RedriveAll(replay, lenient, pending[1..], kept, Fresh(run.state), judged);
        DeliveriesCompose(s, Fresh(run.state), rest.sent, pending, gone, rest.verdicts);
      }
    }
  }

  /** With at most one attempt, every record deleted by a redrive, even one cut short by an
      exception, was emitted under its own id or filtered out. */
  lemma DeletedWereDelivered(
    cfg: Config, world: World, lenient: Lenient, pending: seq<DeadLetterRecord>, store: DeadLetters, s: State)
    requires cfg.maxAttempts <= 1
    requires forall record | record in pending :: MadeUnder(cfg, record)
    ensures var out := RedriveAll(Replaying(cfg, world), lenient, pending, store, s, NOTHING_YET);
            AllDelivered(s, out.sent, pending, out.verdicts)
  {
    ReplayingIsHonest(cfg, world);
    HonestRedrive(cfg, Replaying(cfg, world), lenient, pending, store, s, NOTHING_YET);
  }

  // ---- and exactly when it means that ----

  /** The one-shot provider reports each message's own size. */
  ghost predicate OwnSizes(world: World) {
    forall n, msg :: world(n, msg).size == Ok(Some(msg.sizeBytes))
  }

  /** Were this replay's record deleted, it would be for a delivered message. */
  predicate DeletesOnlyDelivered(run: Run) {
    !run.escaped && Resubmitted(run.state.report) ==>
      run.steps == [Terminal(Emitted)] || run.steps == [Terminal(Dropped)]
  }

  predicate SizeFits(cfg: Config, msg: RawMessage) {
    0 < msg.sizeBytes <= cfg.maxMessageBytes
  }

  lemma {:induction false} MisfitIsNotDeleted(cfg: Config, world: World, s: State, msg: RawMessage)
    requires OwnSizes(world) && !SizeFits(cfg, msg)
    ensures !Replay(cfg, world, s, msg).escaped ==> !Resubmitted(Replay(cfg, world, s, msg).state.report)
  {
    ReplayVisitsOnce(cfg, world, s, msg);
    ReplayEnds(cfg, world, s, msg);
    var start := Counted(Fresh(s));
    MisfitAttempt(Scoped(cfg), world(start.visits, msg), Entered(Scoped(cfg), start, msg), msg);
    assert Process(Scoped(cfg), world, start, msg)
        == Attempt(Scoped(cfg), world(start.visits, msg), Entered(Scoped(cfg), start, msg), msg);
  }

  lemma MisfitAttempt(cfg: Config, v: Visit, s: State, msg: RawMessage)
    requires v.size == Ok(Some(msg.sizeBytes)) && !SizeFits(cfg, msg)
    ensures Attempt(cfg, v, s, msg).1 in {Escaped, Terminal(DeadLettered)}
  {
  }

  lemma {:induction false} TransientIsDeleted(cfg: Config, world: World, s: State, msg: RawMessage)
    requires SizeFits(cfg, msg) && 1 < cfg.maxAttempts
    requires OwnSizes(world) && forall n, m :: world(n, m).first == FAILING_WORK
    ensures !DeletesOnlyDelivered(Replay(cfg, world, s, msg))
  {
    ReplayVisitsOnce(cfg, world, s, msg);
    ReplayEnds(cfg, world, s, msg);
    var start := Counted(Fresh(s));
    FailingAttempt(Scoped(cfg), world(start.visits, msg), Entered(Scoped(cfg), start, msg), msg);
    assert Process(Scoped(cfg), world, start, msg)
        == Attempt(Scoped(cfg), world(start.visits, msg), Entered(Scoped(cfg), start, msg), msg);
  }

  lemma EndsTells(cfg: Config, run: Run)
    requires Ends(cfg, run)
    ensures !run.escaped ==> (DeletesOnlyDelivered(run) <==> run.state.report.AllTerminal())
    ensures cfg.maxAttempts <= 1 ==> DeletesOnlyDelivered(run)
  {
    assert run.steps == [run.steps[0]];
    match run.steps[0] {
      case Terminal(Emitted) =>
      case Terminal(Dropped) =>
      case Terminal(Duplicate) =>
      case Terminal(DeadLettered) =>
      case Pending => assert run.state.report.Terminal() == 0;
      case Escaped =>
    }
  }

  /** Deletion is only ever for a delivered message if and only if one attempt is the limit
      or the size guard stops the message anyway: otherwise a transient failure, which the
      replay leaves pending, is deleted as resubmitted. */
  lemma {:induction false} DeletionIsSafeExactly(cfg: Config, msg: RawMessage)
    ensures (forall world: World, s: State | OwnSizes(world) :: DeletesOnlyDelivered(Replay(cfg, world, s, msg)))
            <==> cfg.maxAttempts <= 1 || !SizeFits(cfg, msg)
  {
    if cfg.maxAttempts <= 1 || !SizeFits(cfg, msg) {
      forall world: World, s: State | OwnSizes(world) ensures DeletesOnlyDelivered(Replay(cfg, world, s, msg)) {
        ReplayEnds(cfg, world, s, msg);
        EndsTells(cfg, Replay(cfg, world, s, msg));
        if !SizeFits(cfg, msg) {
          MisfitIsNotDeleted(cfg, world, s, msg);
        }
      }
    } else {
      var world: World := (n, m: RawMessage) =>
        STUMBLE.(size := Ok(Some(m.sizeBytes)));
      TransientIsDeleted(cfg, world, EMPTY_STATE, msg);
    }
  }

  /** For any one replay, the run's own report would have told: the deletion rule goes wrong
      exactly where `AllTerminal` fails. */
  lemma AllTerminalWouldTell(cfg: Config, world: World, s: State, msg: RawMessage)
    requires !Replay(cfg, world, s, msg).escaped
    ensures DeletesOnlyDelivered(Replay(cfg, world, s, msg)) <==> Replay(cfg, world, s, msg).state.report.AllTerminal()
  {
    ReplayEnds(cfg, world, s, msg);
    EndsTells(cfg, Replay(cfg, world, s, msg));
  }
}
