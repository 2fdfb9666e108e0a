/** Which batches of Event Hubs events may lose one: a held event whose checkpoint is passed. */
module PassedEvents {
  import opened Models
  import opened Observability
  import opened MemoryStores
  import opened Delivery
  import opened Visits
  import opened Runs
  import opened Scenarios
  import opened Graph
  import opened GraphRuns
  import opened Runtimes

  const IDLE := Desk([], [], 0, 0)

  // ---- The condition, on configuration and events alone ----

  predicate Notified(event: Signal) {
    event.notes.Ok? && event.notes.value != []
  }

  /** Handling the event raises whatever the mail server answers. */
  predicate MustRaise(event: Signal) {
    event.notes.Raise? || (event.notes.value == [] && exists l | l in event.lifecycle :: l.Raise?)
  }

  /** An event with notes, followed by one that may settle, with none to raise before that. */
  predicate CanPass(events: seq<Signal>, i: nat) {
    i + 1 < |events| && Notified(events[i]) && forall k | 0 <= k <= i + 1 :: !MustRaise(events[k])
  }

  /** A message may be left pending at all. */
  predicate Retries(cfg: Config) {
    1 < cfg.maxAttempts && 1 <= cfg.maxMessageBytes
  }

  ghost predicate CanLose(cfg: Config, events: seq<Signal>) {
    Retries(cfg) && exists i :: CanPass(events, i)
  }

  /** Every held event of the batch will be delivered again. */
  ghost predicate HeldComeBack(verdicts: seq<Verdict>) {
    forall i | 0 <= i < |verdicts| && verdicts[i] == Verdict.Held :: Checkpoint(verdicts) <= i
  }

  // ---- Where nothing can be lost ----

  ghost predicate NeverPending(handle: Handler) {
    forall s, msg :: !handle(s, msg).1.Pending?
  }

  lemma MisfitDoesNotWait(cfg: Config, v: Visit, s: State, msg: RawMessage)
    requires cfg.maxMessageBytes < 1
    ensures !Attempt(cfg, v, s, msg).1.Pending?
  {
  }

  lemma {:induction false} OneAttemptIsFinal(cfg: Config, world: World)
    requires !Retries(cfg)
    ensures NeverPending(Handling(cfg, world))
  {
    forall s, msg ensures !Handling(cfg, world)(s, msg).1.Pending? {
      EveryVisit(cfg, world, s, msg);
      if cfg.maxMessageBytes < 1 && Claimable(s.claims, KeyOf(cfg, msg)) {
        MisfitDoesNotWait(cfg, world(s.visits, msg), Entered(cfg, s, msg), msg);
        assert Process(cfg, world, s, msg) == Attempt(cfg, world(s.visits, msg), Entered(cfg, s, msg), msg);
      }
    }
  }

  lemma {:induction false} StreamNeverWaits(cfg: Config, handle: Handler, s: State, stream: StreamRef,
                                            batch: seq<RawMessage>, blocked: bool)
    requires NeverPending(handle)
    ensures Step.Pending !in RunStream(cfg, handle, s, stream, batch, blocked).steps
    decreases |batch|
  {
    if batch != [] {
      var (next, step) := Advance(cfg, handle, s, stream, batch[0], blocked);
      assert !handle(Counted(s), batch[0]).1.Pending?;
      if !step.Escaped? {
        StreamNeverWaits(cfg, handle, next, stream, batch[1..], blocked || step.Pending?);
      }
    }
  }

  ghost predicate RunnerNeverWaits(runner: StreamRunner) {
    forall s, d, stream :: Step.Pending !in runner(s, d, stream).steps
  }

  lemma RunningNeverWaits(cfg: Config, handle: Handler, client: Client)
    requires NeverPending(handle)
    ensures RunnerNeverWaits(Running(cfg, handle, client))
  {
    forall s, d, stream ensures Step.Pending !in Running(cfg, handle, client)(s, d, stream).steps {
      var notes := Looked(client, stream, d.rounds, d.pending, 0, d.order);
      var batch := notes.messages + SweptAfter(client, d, stream, CursorOf(cfg, s, stream), notes).messages;
      StreamNeverWaits(cfg, handle, s, stream, batch, false);
    }
  }

  lemma {:induction false} StreamsNeverWait(runner: StreamRunner, s: State, d: Desk, streams: seq<StreamRef>)
    requires RunnerNeverWaits(runner)
    ensures Step.Pending !in RunGraphStreams(runner, s, d, streams).steps
    decreases |streams|
  {
    if streams != [] {
      var first := runner(s, d, streams[0]);
      assert Step.Pending !in first.steps;
      if !first.escaped {
        StreamsNeverWait(runner, first.state, first.desk, streams[1..]);
      }
    }
  }

  /** A handler whose verdicts the events explain: only notes are held, and what must raise does. */
  ghost predicate Judges(handler: SignalHandler, mayHold: bool) {
    forall s, d, event ::
      (handler(s, d, event).2 == Verdict.Held ==> mayHold && Notified(event))
      && (MustRaise(event) ==> handler(s, d, event).2 == Raised)
  }

  lemma {:induction false} SweepingRaises(d: Desk, lifecycle: seq<Answer<Option<StreamRef>>>)
    ensures Sweeping(d, lifecycle).1 == if exists l | l in lifecycle :: l.Raise? then Raised else Settled
    decreases |lifecycle|
  {
    if lifecycle != [] {
      assert lifecycle == [lifecycle[0]] + lifecycle[1..];
      match lifecycle[0] {
        case Raise(_) => assert lifecycle[0] in lifecycle;
        case Ok(None) => SweepingRaises(d, lifecycle[1..]);
        case Ok(Some(stream)) => SweepingRaises(d.(sweeps := AddNew(d.sweeps, stream)), lifecycle[1..]);
      }
    }
  }

  lemma {:induction false} HeldWaits(cfg: Config, world: World, client: Client, s: State, d: Desk)
    requires !Retries(cfg)
    ensures var run := RunGraph(cfg, Handling(cfg, world), client, s, d);
            run.escaped || run.state.report.AllTerminal()
  {
    var handle, run := Handling(cfg, world), RunGraph(cfg, Handling(cfg, world), client, s, d);
    OneAttemptIsFinal(cfg, world);
    RunningNeverWaits(cfg, handle, client);
    StreamsNeverWait(Running(cfg, handle, client), s.(report := EMPTY_REPORT), d, SyncStreams(client, d));
    ReportTells(cfg, world, client, s, d);
    RunServes(cfg, world, client, s, d);
  }

  lemma {:induction false} HandlingJudges(cfg: Config, world: World, client: Client)
    ensures Judges(SignalHandling(cfg, world, client), Retries(cfg))
  {
    var handler := SignalHandling(cfg, world, client);
    forall s, d, event
      ensures (handler(s, d, event).2 == Verdict.Held ==> Retries(cfg) && Notified(event))
           && (MustRaise(event) ==> handler(s, d, event).2 == Raised)
    {
      if event.notes.Ok? && event.notes.value == [] {
        SweepingRaises(d, event.lifecycle);
      } else if event.notes.Ok? && !Retries(cfg) {
        HeldWaits(cfg, world, client, s, Submitted(d, event.notes.value));
      }
    }
  }

  /** What the verdicts of a batch owe to its events; only the last may be an exception. */
  ghost predicate Explained(verdicts: seq<Verdict>, events: seq<Signal>, mayHold: bool) {
    && |verdicts| <= |events|
    && (forall i | 0 <= i < |verdicts| - 1 :: verdicts[i] != Raised)
    && (forall i | 0 <= i < |verdicts| :: verdicts[i] == Verdict.Held ==> mayHold && Notified(events[i]))
    && (forall i | 0 <= i < |verdicts| :: MustRaise(events[i]) ==> verdicts[i] == Raised)
  }

  lemma {:induction false} VerdictsExplained(handler: SignalHandler, mayHold: bool, s: State, d: Desk,
                                             events: seq<Signal>)
    requires Judges(handler, mayHold)
    ensures Explained(HandleAll(handler, s, d, events).verdicts, events, mayHold)
    decreases |events|
  {
    if events != [] {
      var (s', d', verdict, _) := handler(s, d, events[0]);
      assert (handler(s, d, events[0]).2 == Verdict.Held ==> mayHold && Notified(events[0]));
      if verdict != Raised {
        VerdictsExplained(handler, mayHold, s', d', events[1..]);
        assert forall i | 1 <= i < |events| :: events[i] == events[1..][i - 1];
      }
    }
  }

  lemma {:induction false} ExplainedComeBack(verdicts: seq<Verdict>, events: seq<Signal>, mayHold: bool)
    requires Explained(verdicts, events, mayHold) && (mayHold ==> forall i :: !CanPass(events, i))
    ensures HeldComeBack(verdicts)
  {
    forall i | 0 <= i < |verdicts| && verdicts[i] == Verdict.Held ensures Checkpoint(verdicts) <= i {
      CheckpointPasses(verdicts, i);
      assert !CanPass(events, i);
    }
  }

  /** Unless the events can lose one, every held event comes back: in every world, with every
      mail server, from any state and desk. */
  lemma SafeBatch(cfg: Config, world: World, client: Client, s: State, d: Desk, events: seq<Signal>)
    requires !CanLose(cfg, events)
    ensures HeldComeBack(HandleAll(SignalHandling(cfg, world, client), s, d, events).verdicts)
  {
    var handler := SignalHandling(cfg, world, client);
    HandlingJudges(cfg, world, client);
    VerdictsExplained(handler, Retries(cfg), s, d, events);
    ExplainedComeBack(HandleAll(handler, s, d, events).verdicts, events, Retries(cfg));
  }

  // ---- Where something can ----

  const STREAM := StreamRef("user", Some("inbox"))

  const MAIL := Mail("a", [], "", 0.0)

  /** The first lookup ever made finds a mail; nothing else does. */
  const CLIENT := Client(
    (note: Note) => STREAM,
    (round: nat, i: nat, note: Note) => if round == 0 && i == 0 then Ok(Some(MAIL)) else Ok(None),
    (round, stream, token) => Ok(Listing([], "")))

  /** Only the very first visit fails, and only for now. */
  const WORLD: World := (n, msg) => if n == 0 then STUMBLE else SMOOTH_VISIT

  function MailOf(order: nat): RawMessage {
    ToRaw(STREAM, MAIL, NoteCursor(STREAM, order + 1))
  }

  lemma {:induction false} NothingMoreIsFound(round: nat, pending: seq<Note>, stream: StreamRef, i: nat, order: nat)
    requires i <= |pending| && (0 < round || 0 < i)
    ensures Looked(CLIENT, stream, round, pending, i, order) == Batch([], false)
    decreases |pending| - i
  {
    if i < |pending| {
      NothingMoreIsFound(round, pending, stream, i + 1, order);
    }
  }

  /** After the first fetch every stream is empty: its run changes nothing but the desk. */
  lemma {:induction false} EmptyStream(cfg: Config, handle: Handler, s: State, d: Desk, stream: StreamRef)
    requires 0 < d.rounds
    ensures var run := RunGraphStream(cfg, handle, CLIENT, s, d, stream);
            run.state == s && run.steps == [] && run.fetched == [] && !run.escaped && 0 < run.desk.rounds
  {
    NothingMoreIsFound(d.rounds, d.pending, stream, 0, d.order);
    assert RunStream(cfg, handle, s, stream, [], false) == Run(s, [], false);
  }

  lemma {:induction false} EmptyStreams(cfg: Config, handle: Handler, s: State, d: Desk, streams: seq<StreamRef>)
    requires 0 < d.rounds
    ensures var run := RunGraphStreams(Running(cfg, handle, CLIENT), s, d, streams);
            run.state == s && run.steps == [] && run.fetched == [] && !run.escaped && 0 < run.desk.rounds
    decreases |streams|
  {
    if streams != [] {
      EmptyStream(cfg, handle, s, d, streams[0]);
      var first := Running(cfg, handle, CLIENT)(s, d, streams[0]);
      assert first == RunGraphStream(cfg, handle, CLIENT, s, d, streams[0]);
      EmptyStreams(cfg, handle, s, first.desk, streams[1..]);
    }
  }

  /** So every later event settles or must raise, and leaves the claims as they are. */
  lemma {:induction false} LaterEvent(cfg: Config, s: State, d: Desk, event: Signal)
    requires d.pending == [] && Unrepeated(d.sweeps) && 0 < d.rounds
    ensures var (s', d', verdict, _) := HandleSignal(cfg, WORLD, CLIENT, s, d, event);
            && s'.claims == s.claims && d'.pending == [] && Unrepeated(d'.sweeps) && 0 < d'.rounds
            && verdict == if MustRaise(event) then Raised else Settled
  {
    if event.notes.Ok? {
      if event.notes.value == [] {
        SweepingRaises(d, event.lifecycle);
        SweepingKeeps(d, event.lifecycle);
        assert Sweeping(d, event.lifecycle).0.(sweeps := []).rounds == d.(sweeps := []).rounds;
        assert Sweeping(d, event.lifecycle).0.(sweeps := []).pending == d.(sweeps := []).pending;
      } else {
        var submitted, handle := Submitted(d, event.notes.value), Handling(cfg, WORLD);
        EmptyStreams(cfg, handle, s.(report := EMPTY_REPORT), submitted, SyncStreams(CLIENT, submitted));
        NormalRunEmptiesTheDesk(cfg, handle, CLIENT, s, submitted);
      }
    }
  }

  lemma {:induction false} LaterEvents(cfg: Config, s: State, d: Desk, events: seq<Signal>)
    requires d.pending == [] && Unrepeated(d.sweeps) && 0 < d.rounds
    ensures var out := HandleAll(SignalHandling(cfg, WORLD, CLIENT), s, d, events);
            && out.state.claims == s.claims && out.desk.pending == []
            && (events != [] ==> out.verdicts != [] && (!MustRaise(events[0]) ==> out.verdicts[0] == Settled))
    decreases |events|
  {
    if events != [] {
      LaterEvent(cfg, s, d, events[0]);
      var (s', d', verdict, _) := SignalHandling(cfg, WORLD, CLIENT)(s, d, events[0]);
      assert (s', d', verdict) == (HandleSignal(cfg, WORLD, CLIENT, s, d, events[0]).0,
                                   HandleSignal(cfg, WORLD, CLIENT, s, d, events[0]).1,
                                   HandleSignal(cfg, WORLD, CLIENT, s, d, events[0]).2);
      if verdict != Raised {
        LaterEvents(cfg, s', d', events[1..]);
      }
    }
  }

  // ---- The losing batch ----

  lemma {:induction false} NotesOfOneStream(pending: seq<Note>)
    requires pending != []
    ensures NoteStreams(CLIENT, pending) == [STREAM]
  {
    if |pending| > 1 {
      NotesOfOneStream(pending[..|pending| - 1]);
    } else {
      assert pending[..0] == [];
      assert NoteStreams(CLIENT, pending) == [] + [STREAM];
    }
  }

  lemma {:induction false} SweepsFollow(seen: seq<StreamRef>, sweeps: seq<StreamRef>)
    requires seen != []
    ensures WithSweeps(seen, sweeps) != [] && WithSweeps(seen, sweeps)[0] == seen[0]
  {
    if sweeps != [] {
      SweepsFollow(seen, sweeps[..|sweeps| - 1]);
    }
  }

  /** The run of the first notes: one mail is fetched and left pending. */
  lemma {:induction false} FirstStream(cfg: Config, handle: Handler, s: State, d: Desk)
    requires d.rounds == 0 && d.pending != []
    ensures var (next, step) := Advance(cfg, handle, s, STREAM, MailOf(d.order), false);
            var run := RunGraphStream(cfg, handle, CLIENT, s, d, STREAM);
            run.state == next && run.steps == [step] && run.fetched == [MailOf(d.order)] && run.escaped == step.Escaped?
            && 0 < run.desk.rounds
  {
    var msg := MailOf(d.order);
    NothingMoreIsFound(0, d.pending, STREAM, 1, d.order + 1);
    assert Looked(CLIENT, STREAM, 0, d.pending, 0, d.order) == Batch([msg] + [], false);
    assert [msg] + [] == [msg];
    OneMessageStream(cfg, handle, s, STREAM, msg);
    assert [msg][..1] == [msg];
  }

  lemma {:induction false} FirstRun(cfg: Config, handle: Handler, s: State, d: Desk)
    requires d.rounds == 0 && d.pending != []
    requires !Advance(cfg, handle, s.(report := EMPTY_REPORT), STREAM, MailOf(d.order), false).1.Escaped?
    ensures var (next, step) := Advance(cfg, handle, s.(report := EMPTY_REPORT), STREAM, MailOf(d.order), false);
            var run := RunGraph(cfg, handle, CLIENT, s, d);
            run.state == next && run.steps == [step] && run.fetched == [MailOf(d.order)] && !run.escaped
            && 0 < run.desk.rounds
  {
    var start, runner, streams := s.(report := EMPTY_REPORT), Running(cfg, handle, CLIENT), SyncStreams(CLIENT, d);
    NotesOfOneStream(d.pending);
    SweepsFollow([STREAM], d.sweeps);
    FirstStream(cfg, handle, start, d);
    var first := RunGraphStream(cfg, handle, CLIENT, start, d, STREAM);
    assert runner(start, d, streams[0]) == first;
    EmptyStreams(cfg, handle, first.state, first.desk, streams[1..]);
    assert first.steps + [] == first.steps && first.fetched + [] == first.fetched;
  }

  lemma {:induction false} FirstVisitWaits(cfg: Config, s: State, msg: RawMessage)
    requires Retries(cfg) && s.visits == 0 && s.claims == map[]
    ensures var (t, step) := Process(cfg, WORLD, s, msg);
            step.Pending? && !IsDone(t.claims, KeyOf(cfg, msg))
  {
    EveryVisit(cfg, WORLD, s, msg);
    FailingAttempt(cfg, STUMBLE, Entered(cfg, s, msg), msg);
    assert Process(cfg, WORLD, s, msg) == Attempt(cfg, STUMBLE, Entered(cfg, s, msg), msg);
  }

  /** A batch in which the i-th event is held, the next settles, and the mail fetched for the
      held one is neither done nor waiting at the end. */
  ghost predicate Loses(cfg: Config, out: Handled, i: nat) {
    && i + 1 < |out.verdicts| && out.verdicts[i] == Verdict.Held && out.verdicts[i + 1] == Settled
    && out.desk.pending == []
    && i < |out.served| && exists msg :: msg in out.served[i].fetched && !IsDone(out.state.claims, KeyOf(cfg, msg))
  }

  lemma {:induction false} FirstEvent(cfg: Config, d: Desk, event: Signal)
    requires Retries(cfg) && Notified(event) && d.pending == [] && d.rounds == 0 && Unrepeated(d.sweeps)
    ensures var (s', d', verdict, served) := HandleSignal(cfg, WORLD, CLIENT, EMPTY_STATE, d, event);
            && verdict == Verdict.Held && served.fetched == [MailOf(d.order)]
            && !IsDone(s'.claims, KeyOf(cfg, MailOf(d.order)))
            && d'.pending == [] && Unrepeated(d'.sweeps) && 0 < d'.rounds
  {
    var handle, submitted, msg := Handling(cfg, WORLD), Submitted(d, event.notes.value), MailOf(d.order);
    var start := EMPTY_STATE.(report := EMPTY_REPORT);
    FirstVisitWaits(cfg, Counted(start), msg);
    assert handle(Counted(start), msg) == Process(cfg, WORLD, Counted(start), msg);
    FirstRun(cfg, handle, EMPTY_STATE, submitted);
    ReportTells(cfg, WORLD, CLIENT, EMPTY_STATE, submitted);
    NormalRunEmptiesTheDesk(cfg, handle, CLIENT, EMPTY_STATE, submitted);
  }

  lemma {:induction false} LosingPair(cfg: Config, d: Desk, events: seq<Signal>)
    requires Retries(cfg) && d.pending == [] && d.rounds == 0 && Unrepeated(d.sweeps) && CanPass(events, 0)
    ensures Loses(cfg, HandleAll(SignalHandling(cfg, WORLD, CLIENT), EMPTY_STATE, d, events), 0)
  {
    var handler := SignalHandling(cfg, WORLD, CLIENT);
    var (s', d', verdict, served) := handler(EMPTY_STATE, d, events[0]);
    assert handler(EMPTY_STATE, d, events[0]) == HandleSignal(cfg, WORLD, CLIENT, EMPTY_STATE, d, events[0]);
    FirstEvent(cfg, d, events[0]);
    LaterEvents(cfg, s', d', events[1..]);
    var out := HandleAll(handler, EMPTY_STATE, d, events);
    assert out.served[0] == served && MailOf(d.order) in served.fetched;
  }

  /** An event without notes only adds sweeps. */
  lemma SilentEvent(cfg: Config, d: Desk, event: Signal)
    requires !MustRaise(event) && !Notified(event) && Unrepeated(d.sweeps)
    ensures var (s', d', verdict, _) := HandleSignal(cfg, WORLD, CLIENT, EMPTY_STATE, d, event);
            s' == EMPTY_STATE && verdict == Settled && Unrepeated(d'.sweeps)
            && d'.pending == d.pending && d'.rounds == d.rounds
  {
    SweepingRaises(d, event.lifecycle);
    SweepingKeeps(d, event.lifecycle);
    var d' := Sweeping(d, event.lifecycle).0;
    assert d'.pending == d'.(sweeps := []).pending && d'.rounds == d'.(sweeps := []).rounds;
  }

  lemma {:induction false} LosingBatch(cfg: Config, d: Desk, events: seq<Signal>, i: nat)
    requires Retries(cfg) && d.pending == [] && d.rounds == 0 && Unrepeated(d.sweeps)
    requires CanPass(events, i) && forall k | 0 <= k < i :: !Notified(events[k])
    ensures Loses(cfg, HandleAll(SignalHandling(cfg, WORLD, CLIENT), EMPTY_STATE, d, events), i)
    decreases |events|
  {
    if i == 0 {
      LosingPair(cfg, d, events);
    } else {
      var handler := SignalHandling(cfg, WORLD, CLIENT);
      var (s', d', verdict, served) := handler(EMPTY_STATE, d, events[0]);
      assert handler(EMPTY_STATE, d, events[0]) == HandleSignal(cfg, WORLD, CLIENT, EMPTY_STATE, d, events[0]);
      SilentEvent(cfg, d, events[0]);
      assert forall k | 0 <= k < |events| - 1 :: events[1..][k] == events[k + 1];
      LosingBatch(cfg, d', events[1..], i - 1);
      LosesLater(cfg, handler, d, events, i);
    }
  }

  lemma LosesLater(cfg: Config, handler: SignalHandler, d: Desk, events: seq<Signal>, i: nat)
    requires 0 < i < |events| && handler(EMPTY_STATE, d, events[0]).2 == Settled
    requires var (s', d', _, _) := handler(EMPTY_STATE, d, events[0]); Loses(cfg,
        HandleAll(handler, s', d', events[1..]), i - 1)
    ensures Loses(cfg, HandleAll(handler, EMPTY_STATE, d, events), i)
  {
    var (s', d', verdict, served) := handler(EMPTY_STATE, d, events[0]);
    var out, rest := HandleAll(handler, EMPTY_STATE, d, events), HandleAll(handler, s', d', events[1..]);
    assert out.served[i] == rest.served[i - 1];
  }

  lemma {:induction false} FirstToPass(events: seq<Signal>, i: nat) returns (first: nat)
    requires CanPass(events, i)
    ensures CanPass(events, first) && forall k | 0 <= k < first :: !Notified(events[k])
  {
    first := i;
    if k :| 0 <= k < i && Notified(events[k]) {
      assert CanPass(events, k);
      first := FirstToPass(events, k);
    }
  }

  /** Where the events can lose one, one world and one mail server do: the checkpoint passes
      a held event whose mail is then neither done nor waiting. */
  lemma {:induction false} PassedEventIsLost(cfg: Config, events: seq<Signal>) returns (i: nat)
    requires CanLose(cfg, events)
    ensures var out := HandleAll(SignalHandling(cfg, WORLD, CLIENT), EMPTY_STATE, IDLE, events);
            Loses(cfg, out, i) && i < Checkpoint(out.verdicts)
  {
    var any: nat :| CanPass(events, any);
    i := FirstToPass(events, any);
    LosingBatch(cfg, IDLE, events, i);
    CheckpointPasses(HandleAll(SignalHandling(cfg, WORLD, CLIENT), EMPTY_STATE, IDLE, events).verdicts, i);
  }

  /** From empty stores and an idle desk, every held event comes back, in every world and with
      every mail server, if and only if the configuration leaves no message pending or the
      events let none be passed: no event with notes is followed by one that may settle
      before one that must raise. */
  lemma {:induction false} HeldIsRedeliveredExactly(cfg: Config, events: seq<Signal>)
    ensures (forall world: World, client: Client ::
               HeldComeBack(HandleAll(SignalHandling(cfg, world, client), EMPTY_STATE, IDLE, events).verdicts))
            <==> !CanLose(cfg, events)
  {
    if CanLose(cfg, events) {
      var i := PassedEventIsLost(cfg, events);
      var verdicts := HandleAll(SignalHandling(cfg, WORLD, CLIENT), EMPTY_STATE, IDLE, events).verdicts;
      assert verdicts[i] == Verdict.Held && !HeldComeBack(verdicts);
    } else {
      forall world: World, client: Client
        ensures HeldComeBack(HandleAll(SignalHandling(cfg, world, client), EMPTY_STATE, IDLE, events).verdicts)
      {
        SafeBatch(cfg, world, client, EMPTY_STATE, IDLE, events);
      }
    }
  }
}
