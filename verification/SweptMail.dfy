/** What becomes of mail a sweep brings in while a message is delivered again and again. */
module SweptMail {
  import opened Models
  import opened Observability
  import opened MemoryStores
  import opened Delivery
  import opened Visits
  import opened Runs
  import opened LowWater
  import opened Convergence
  import opened Scenarios
  import opened Graph
  import opened GraphRuns
  import opened Runtimes
  import opened Redelivery
  import PassedEvents
  import SharedSlots

  /** None of the notes stands for this key. */
  ghost predicate Foreign(cfg: Config, client: Client, answers: Answers, notes: seq<Note>, key: string) {
    forall note | note in notes && answers(note).Some? :: NoteKey(cfg, client, note, answers(note).value) != key
  }

  /** Nothing but these notes waits. */
  ghost predicate OnlyNotes(d: Desk, notes: seq<Note>) {
    d.sweeps == [] && forall note | note in d.pending :: note in notes
  }

  ghost predicate LeavesKey(s: State, d: Desk, notes: seq<Note>, run: GraphRun, key: string) {
    OnlyNotes(d, notes) ==> OnlyNotes(run.desk, notes) && (IsDone(run.state.claims, key) <==> IsDone(s.claims, key))
  }

  lemma {:induction false} StreamLeavesForeign(cfg: Config, handle: Handler, client: Client, answers: Answers,
                                               notes: seq<Note>, s: State, d: Desk, stream: StreamRef, key: string)
    requires Sound(cfg, handle) && Steady(client, notes, answers) && Foreign(cfg, client, answers, notes, key)
    ensures LeavesKey(s, d, notes, RunGraphStream(cfg, handle, client, s, d, stream), key)
  {
    if OnlyNotes(d, notes) {
      var found := Looked(client, stream, d.rounds, d.pending, 0, d.order);
      var batch := found.messages + SweptAfter(client, d, stream, CursorOf(cfg, s, stream), found).messages;
      LookedIsSteady(cfg, client, answers, notes, stream, d.rounds, d.pending, 0, d.order);
      assert batch == found.messages;
      forall msg | msg in batch ensures KeyOf(cfg, msg) != key {
        assert FromNote(cfg, client, answers, notes, msg);
      }
      SharedSlots.StreamLeavesKey(cfg, handle, s, stream, batch, false, key);
      OthersAreOfThem(client, stream, d.pending);
    }
  }

  ghost predicate LeavingKey(notes: seq<Note>, runner: StreamRunner, key: string) {
    forall s, d, stream :: LeavesKey(s, d, notes, runner(s, d, stream), key)
  }

  lemma {:induction false} StreamsLeaveForeign(notes: seq<Note>, runner: StreamRunner, s: State, d: Desk,
                                               streams: seq<StreamRef>, key: string)
    requires LeavingKey(notes, runner, key) && OnlyNotes(d, notes)
    ensures IsDone(RunGraphStreams(runner, s, d, streams).state.claims, key) <==> IsDone(s.claims, key)
    decreases |streams|
  {
    if streams != [] {
      var first := runner(s, d, streams[0]);
      assert LeavesKey(s, d, notes, first, key);
      if !first.escaped {
        StreamsLeaveForeign(notes, runner, first.state, first.desk, streams[1..], key);
      }
    }
  }

  /** A run that finds only the notes waiting leaves every other message as it is. */
  lemma {:induction false} RunLeavesForeign(cfg: Config, world: World, client: Client, answers: Answers,
                                            notes: seq<Note>, s: State, d: Desk, key: string)
    requires Steady(client, notes, answers) && Foreign(cfg, client, answers, notes, key) && OnlyNotes(d, notes)
    ensures IsDone(RunGraph(cfg, Handling(cfg, world), client, s, d).state.claims, key) <==> IsDone(s.claims, key)
  {
    var runner := Graph.Running(cfg, Handling(cfg, world), client);
    ProcessIsSound(cfg, world);
    forall s, d, stream ensures LeavesKey(s, d, notes, runner(s, d, stream), key) {
      StreamLeavesForeign(cfg, Handling(cfg, world), client, answers, notes, s, d, stream, key);
    }
    StreamsLeaveForeign(notes, runner, s.(report := EMPTY_REPORT), d, SyncStreams(client, d), key);
  }

  /** Where the n-th delivery of a message leaves the stores and the queue. */
  function After(cfg: Config, world: World, client: Client, notes: seq<Note>, s: State, d: Desk,
                 n: nat): (State, Desk, Verdict, Served)
    requires 1 <= n
  {
    Redelivered(SignalHandling(cfg, world, client), s, d, Signal(Ok(notes), []), n)
  }

  /** A delivery after the first leaves everything but the notes' mail as it is. */
  lemma {:induction false} NextLeavesForeign(cfg: Config, world: World, client: Client, answers: Answers,
                                             notes: seq<Note>, s: State, d: Desk, key: string)
    requires Steady(client, notes, answers) && notes != [] && d.pending == [] && d.sweeps == []
    requires Foreign(cfg, client, answers, notes, key)
    ensures IsDone(HandleSignal(cfg, world, client, s, d, Signal(Ok(notes), [])).0.claims, key) <==> IsDone(s.claims,
        key)
  {
    assert Submitted(d, notes).pending == notes;
    RunLeavesForeign(cfg, world, client, answers, notes, s, Submitted(d, notes), key);
  }

  lemma {:induction false} ForeignStays(cfg: Config, world: World, client: Client, answers: Answers, notes: seq<Note>,
                                        s: State, d: Desk, n: nat, key: string)
    requires Obliging(world) && Steady(client, notes, answers) && notes != []
    requires Quiet(s.claims) && d.pending == [] && Unrepeated(d.sweeps) && 1 <= n
    requires Foreign(cfg, client, answers, notes, key)
    ensures IsDone(After(cfg, world, client, notes, s, d, n).0.claims, key)
       <==> IsDone(After(cfg, world, client, notes, s, d, 1).0.claims, key)
  {
    if 1 < n {
      ForeignStays(cfg, world, client, answers, notes, s, d, n - 1, key);
      RedeliveryConverges(cfg, world, client, answers, notes, [], s, d, n - 1);
      var (s', d', _, _) := After(cfg, world, client, notes, s, d, n - 1);
      NextLeavesForeign(cfg, world, client, answers, notes, s', d', key);
    }
  }

  /** Once the message is settled, so is the mail of its notes. */
  lemma {:induction false} NotesAreDone(cfg: Config, world: World, client: Client, answers: Answers, notes: seq<Note>,
                                        s: State, d: Desk, n: nat, note: Note)
    requires Obliging(world) && Steady(client, notes, answers) && note in notes && answers(note).Some?
    requires Quiet(s.claims) && d.pending == [] && Unrepeated(d.sweeps) && 1 <= n && cfg.maxAttempts <= n
    ensures IsDone(After(cfg, world, client, notes, s, d, n).0.claims,
                   NoteKey(cfg, client, note, answers(note).value))
  {
    var before, at := s, d;
    if 1 < n {
      RedeliveryConverges(cfg, world, client, answers, notes, [], s, d, n - 1);
      before, at := After(cfg, world, client, notes, s, d, n - 1).0, After(cfg, world, client, notes, s, d, n - 1).1;
    }
    RedeliveryConverges(cfg, world, client, answers, notes, [], s, d, n);
    var (end, _, verdict, served) := HandleSignal(cfg, world, client, before, at, Signal(Ok(notes), []));
    SignalKeeps(cfg, world, client, before, at, Signal(Ok(notes), []));
    assert verdict == Settled && IsAsked(note, served.asked);
    var a :| a in served.asked && a.note == note;
    assert Answered(cfg, client, end.claims, a);
    RunAsksServer(cfg, Handling(cfg, world), client, before, Submitted(at, notes));
    assert IsGiven(client, a);
    assert a.answer == Ok(answers(note));
  }

  /** After the deliveries that settle the message, a mail is done if and only if one of the
      notes stands for it or the first delivery had left it done: what that one swept in and
      left pending is not tried again. */
  lemma {:induction false} SweptMailEndsExactly(cfg: Config, world: World, client: Client, answers: Answers,
                                                notes: seq<Note>, s: State, d: Desk, n: nat, key: string)
    requires Obliging(world) && Steady(client, notes, answers) && notes != []
    requires Quiet(s.claims) && d.pending == [] && Unrepeated(d.sweeps) && 1 <= n && cfg.maxAttempts <= n
    ensures IsDone(After(cfg, world, client, notes, s, d, n).0.claims, key)
       <==> !Foreign(cfg, client, answers, notes, key)
            || IsDone(After(cfg, world, client, notes, s, d, 1).0.claims, key)
  {
    if Foreign(cfg, client, answers, notes, key) {
      ForeignStays(cfg, world, client, answers, notes, s, d, n, key);
    } else {
      var note :| note in notes && answers(note).Some? && NoteKey(cfg, client, note, answers(note).value) == key;
      NotesAreDone(cfg, world, client, answers, notes, s, d, n, note);
    }
  }

  // ---- The cursor of a listing ----

  lemma {:induction false} ListedHasOneToken(stream: StreamRef, mails: seq<Answer<Mail>>, link: string, order: nat)
    ensures forall msg | msg in Listed(stream, mails, link, order).messages :: msg.cursor.value == link
  {
    if mails != [] {
      ListedHasOneToken(stream, mails[1..], link, order + 1);
    }
  }

  lemma {:induction false} TokenStays(cfg: Config, handle: Handler, s: State, stream: StreamRef,
                                      batch: seq<RawMessage>, blocked: bool, link: string)
    requires Sound(cfg, handle) && forall msg | msg in batch :: msg.cursor.value == link
    requires CursorOf(cfg, s, stream).Some? && CursorOf(cfg, s, stream).value.value == link
    ensures var end := RunStream(cfg, handle, s, stream, batch, blocked).state;
            CursorOf(cfg, end, stream).Some? && CursorOf(cfg, end, stream).value.value == link
    decreases |batch|
  {
    if batch != [] {
      var (next, step) := Advance(cfg, handle, s, stream, batch[0], blocked);
      TurnCursors(cfg, handle, s, stream, batch[0], blocked);
      assert batch[0] in batch && forall msg | msg in batch[1..] :: msg in batch;
      if !step.Escaped? {
        TokenStays(cfg, handle, next, stream, batch[1..], blocked || step.Pending?, link);
      }
    }
  }

  /** All mail of a listing carries the token behind it: once the first of it is terminal, the
      next sweep resumes behind the whole listing, whatever becomes of the rest. */
  lemma {:induction false} FirstMovesToken(cfg: Config, handle: Handler, s: State, stream: StreamRef,
                                           mails: seq<Answer<Mail>>, link: string, order: nat)
    requires Sound(cfg, handle) && Listed(stream, mails, link, order).messages != []
    requires Position(s.cursors, SlotOf(cfg, stream)) <= order && "http" <= link
    requires Advance(cfg, handle, s, stream, Listed(stream, mails, link, order).messages[0], false).1.Terminal?
    ensures var end := RunStream(cfg, handle, s, stream, Listed(stream, mails, link, order).messages, false).state;
            Token(CursorOf(cfg, end, stream)) == Some(link)
  {
    var batch := Listed(stream, mails, link, order).messages;
    var next := Advance(cfg, handle, s, stream, batch[0], false).0;
    ListedHasOneToken(stream, mails, link, order);
    assert batch[0] in batch && forall msg | msg in batch[1..] :: msg in batch;
    TurnCursors(cfg, handle, s, stream, batch[0], false);
    TokenStays(cfg, handle, next, stream, batch[1..], false, link);
  }

  // ---- A mail that is lost so ----

  /** No note finds a mail; every listing holds this one. */
  const LISTING := Client((note: Note) => PassedEvents.STREAM, (round, i, note) => Ok(None),
                          (round, stream, token) => Ok(Listing([Ok(PassedEvents.MAIL)], "http")))

  /** The work always fails, for now. */
  const STUMBLING: World := (n, msg) => STUMBLE

  function SweptOf(order: nat): RawMessage {
    ToRaw(PassedEvents.STREAM, PassedEvents.MAIL, Cursor("http", order + 1))
  }

  lemma {:induction false} NoneIsFound(stream: StreamRef, round: nat, pending: seq<Note>, i: nat, order: nat)
    requires i <= |pending|
    ensures Looked(LISTING, stream, round, pending, i, order) == Batch([], false)
    decreases |pending| - i
  {
    if i < |pending| {
      NoneIsFound(stream, round, pending, i + 1, order);
    }
  }

  lemma {:induction false} OneStreamListed(pending: seq<Note>)
    requires pending != []
    ensures NoteStreams(LISTING, pending) == [PassedEvents.STREAM]
  {
    if |pending| > 1 {
      OneStreamListed(pending[..|pending| - 1]);
    } else {
      assert pending[..0] == [];
      assert NoteStreams(LISTING, pending) == [] + [PassedEvents.STREAM];
    }
  }

  lemma {:induction false} SweptBatch(d: Desk, cursor: Option<Cursor>)
    requires d.sweeps == [PassedEvents.STREAM]
    ensures SweptAfter(LISTING, d, PassedEvents.STREAM, cursor, Batch([], false)) == Batch([SweptOf(d.order)], false)
  {
    var mails: seq<Answer<Mail>> := [Ok(PassedEvents.MAIL)];
    assert mails[1..] == [];
    assert Listed(PassedEvents.STREAM, [], "http", d.order + 1) == Batch([], false);
    assert Listed(PassedEvents.STREAM, mails, "http", d.order).messages == [SweptOf(d.order)] + [];
  }

  lemma {:induction false} SweptStream(cfg: Config, handle: Handler, s: State, d: Desk)
    requires d.sweeps == [PassedEvents.STREAM]
    ensures var (next, step) := Advance(cfg, handle, s, PassedEvents.STREAM, SweptOf(d.order), false);
            var run := RunGraphStream(cfg, handle, LISTING, s, d, PassedEvents.STREAM);
            run.state == next && run.escaped == step.Escaped?
  {
    var stream, msg := PassedEvents.STREAM, SweptOf(d.order);
    NoneIsFound(stream, d.rounds, d.pending, 0, d.order);
    SweptBatch(d, CursorOf(cfg, s, stream));
    OneMessageStream(cfg, handle, s, stream, msg);
    assert [] + [msg] == [msg];
  }

  lemma {:induction false} SweptRun(cfg: Config, handle: Handler, s: State, d: Desk)
    requires d.pending != [] && d.sweeps == [PassedEvents.STREAM]
    requires !Advance(cfg, handle, s.(report := EMPTY_REPORT), PassedEvents.STREAM, SweptOf(d.order), false).1.Escaped?
    ensures RunGraph(cfg, handle, LISTING, s, d).state
         == Advance(cfg, handle, s.(report := EMPTY_REPORT), PassedEvents.STREAM, SweptOf(d.order), false).0
  {
    var start, stream, runner := s.(report := EMPTY_REPORT), PassedEvents.STREAM, Graph.Running(cfg, handle, LISTING);
    OneStreamListed(d.pending);
    assert d.sweeps[..0] == [];
    assert WithSweeps([stream], []) == [stream];
    assert SyncStreams(LISTING, d) == [stream];
    SweptStream(cfg, handle, start, d);
    OneStreamRun(runner, start, d, stream);
  }

  lemma OneStreamRun(runner: StreamRunner, s: State, d: Desk, stream: StreamRef)
    requires !runner(s, d, stream).escaped
    ensures RunGraphStreams(runner, s, d, [stream]).state == runner(s, d, stream).state
  {
    var first := runner(s, d, stream);
    assert [stream][1..] == [];
    assert RunGraphStreams(runner, first.state, first.desk, []).state == first.state;
  }

  lemma {:induction false} Stumbles(cfg: Config, msg: RawMessage)
    requires PassedEvents.Retries(cfg)
    ensures var (t, step) := Advance(cfg, Handling(cfg, STUMBLING), EMPTY_STATE, msg.stream, msg, false);
            step.Pending? && !IsDone(t.claims, KeyOf(cfg, msg))
  {
    var start := Counted(EMPTY_STATE);
    FailingAttempt(cfg, STUMBLE, Entered(cfg, start, msg), msg);
    EveryVisit(cfg, STUMBLING, start, msg);
    assert Process(cfg, STUMBLING, start, msg) == Attempt(cfg, STUMBLE, Entered(cfg, start, msg), msg);
  }

  /** The first delivery fetches the swept mail and leaves it pending. */
  lemma {:induction false} FirstDeliveryStumbles(cfg: Config, notes: seq<Note>, order: nat)
    requires PassedEvents.Retries(cfg) && notes != []
    ensures !IsDone(After(cfg, STUMBLING, LISTING, notes, EMPTY_STATE, Desk([], [PassedEvents.STREAM], order, 0),
                          1).0.claims, KeyOf(cfg, SweptOf(order)))
  {
    var d := Desk([], [PassedEvents.STREAM], order, 0);
    Stumbles(cfg, SweptOf(order));
    assert EMPTY_STATE.(report := EMPTY_REPORT) == EMPTY_STATE;
    SweptRun(cfg, Handling(cfg, STUMBLING), EMPTY_STATE, Submitted(d, notes));
  }

  /** With more than one attempt allowed, a mail that a sweep brings in and that stumbles once is
      left undone for good, although the message it came with is settled. */
  lemma {:induction false} SweptMailIsLost(cfg: Config, notes: seq<Note>, order: nat, n: nat)
    requires PassedEvents.Retries(cfg) && notes != [] && 1 <= n && cfg.maxAttempts <= n
    ensures var d := Desk([], [PassedEvents.STREAM], order, 0);
            var (s', d', verdict, _) := After(cfg, STUMBLING, LISTING, notes, EMPTY_STATE, d, n);
            && verdict == Settled && d'.pending == [] && d'.sweeps == []
            && !IsDone(s'.claims, KeyOf(cfg, SweptOf(order)))
  {
    var d, answers := Desk([], [PassedEvents.STREAM], order, 0), (note: Note) => None;
    assert Steady(LISTING, notes, answers);
    RedeliveryConverges(cfg, STUMBLING, LISTING, answers, notes, [], EMPTY_STATE, d, n);
    FirstDeliveryStumbles(cfg, notes, order);
    ForeignStays(cfg, STUMBLING, LISTING, answers, notes, EMPTY_STATE, d, n, KeyOf(cfg, SweptOf(order)));
  }
}
