/** What holding a transport message is for: delivered again and again, it settles. */
module Redelivery {
  import opened Models
  import opened Observability
  import opened MemoryStores
  import opened Delivery
  import opened Runs
  import opened LowWater
  import opened Convergence
  import opened Graph
  import opened GraphRuns
  import opened Runtimes
  import Identity

  /** What the mail server has for each note: the same mail at every lookup, or none. */
  type Answers = Note -> Option<Mail>

  /** A delta listing that does not raise, whatever it lists. */
  ghost predicate Lists(listing: Answer<Listing>) {
    listing.Ok? && forall mail | mail in listing.value.mails :: mail.Ok?
  }

  /** The server answers every lookup of these notes, always alike, and every sweep somehow. */
  ghost predicate Steady(client: Client, notes: seq<Note>, answers: Answers) {
    && (forall round, i, note | note in notes :: client.lookup(round, i, note) == Ok(answers(note)))
    && (forall round, stream, token :: Lists(client.delta(round, stream, token)))
  }

  function NoteKey(cfg: Config, client: Client, note: Note, mail: Mail): string {
    Identity.IdempotencyKey(cfg.tenant, client.resolve(note).mailbox, mail.id)
  }

  predicate NoteTried(cfg: Config, client: Client, answers: Answers, claims: Claims, note: Note, r: nat) {
    answers(note).Some? ==> Tried(claims, NoteKey(cfg, client, note, answers(note).value), r)
  }

  ghost predicate NotesTried(cfg: Config, client: Client, answers: Answers, claims: Claims, notes: seq<Note>, r: nat) {
    forall note | note in notes :: NoteTried(cfg, client, answers, claims, note, r)
  }

  /** The message is the mail of one of these notes. */
  ghost predicate FromNote(cfg: Config, client: Client, answers: Answers, notes: seq<Note>, msg: RawMessage) {
    exists note ::
      note in notes && answers(note).Some? && KeyOf(cfg, msg) == NoteKey(cfg, client, note, answers(note).value)
  }

  lemma {:induction false} LookedIsSteady(cfg: Config, client: Client, answers: Answers, notes: seq<Note>,
                                          stream: StreamRef, round: nat, pending: seq<Note>, i: nat, order: nat)
    requires Steady(client, notes, answers) && i <= |pending| && forall note | note in pending :: note in notes
    ensures var batch := Looked(client, stream, round, pending, i, order);
            !batch.raised && forall msg | msg in batch.messages :: FromNote(cfg, client, answers, notes, msg)
    decreases |pending| - i
  {
    if i < |pending| {
      var note := pending[i];
      var mine := client.resolve(note) == stream && answers(note).Some?;
      assert client.lookup(round, i, note) == Ok(answers(note));
      LookedIsSteady(cfg, client, answers, notes, stream, round, pending, i + 1, order + if mine then 1 else 0);
      if mine {
        var msg := ToRaw(stream, answers(note).value, NoteCursor(stream, order + 1));
        assert KeyOf(cfg, msg) == NoteKey(cfg, client, note, answers(note).value);
        assert FromNote(cfg, client, answers, notes, msg);
      }
    }
  }

  /** What the run of one stream, or of several, adds to the notes of those streams. */
  ghost predicate Pushes(cfg: Config, client: Client, answers: Answers, notes: seq<Note>, s: State, d: Desk,
                         run: GraphRun, streams: seq<StreamRef>, r: nat) {
    && !run.escaped && Quiet(run.state.claims) && Grown(s.claims, run.state.claims)
    && (forall note | note in d.pending && client.resolve(note) in streams ::
          NoteTried(cfg, client, answers, run.state.claims, note, r + 1))
    && (cfg.maxAttempts <= r + 1 ==> Step.Pending !in run.steps)
  }

  /** Where a redelivery stands before a stream: quiet, with nothing but its notes waiting
      and, on the first delivery, sweeps. */
  ghost predicate Waits(cfg: Config, client: Client, answers: Answers, notes: seq<Note>, s: State, d: Desk, r: nat) {
    && Quiet(s.claims) && (0 < r ==> d.sweeps == []) && (forall note | note in d.pending :: note in notes)
    && NotesTried(cfg, client, answers, s.claims, notes, r)
  }

  lemma BatchHasLastChance(cfg: Config, client: Client, answers: Answers, notes: seq<Note>, claims: Claims,
                           batch: seq<RawMessage>, r: nat)
    requires NotesTried(cfg, client, answers, claims, notes, r) && cfg.maxAttempts <= r + 1
    requires 0 < r ==> forall msg | msg in batch :: FromNote(cfg, client, answers, notes, msg)
    ensures LastChance(cfg, claims, batch)
  {
    forall i | 0 <= i < |batch|
      ensures IsDone(claims, KeyOf(cfg, batch[i])) || cfg.maxAttempts <= Attempts(claims, KeyOf(cfg, batch[i])) + 1
    {
      if 0 < r {
        assert FromNote(cfg, client, answers, notes, batch[i]);
        var note :| note in notes && answers(note).Some?
                    && KeyOf(cfg, batch[i]) == NoteKey(cfg, client, note, answers(note).value);
        assert NoteTried(cfg, client, answers, claims, note, r);
      }
    }
  }

  /** A mail found in a batch that was tried once more has itself been tried once more. */
  lemma FoundIsTried(cfg: Config, client: Client, answers: Answers, before: Claims, after: Claims, stream: StreamRef,
                     round: nat, pending: seq<Note>, j: nat, batch: seq<RawMessage>, r: nat)
    requires j < |pending| && client.resolve(pending[j]) == stream
    requires client.lookup(round, j, pending[j]) == Ok(answers(pending[j]))
    requires Found(client, stream, round, pending, j, batch)
    requires Grown(before, after) && BatchTried(cfg, before, after, batch)
    requires NoteTried(cfg, client, answers, before, pending[j], r)
    ensures NoteTried(cfg, client, answers, after, pending[j], r + 1)
  {
    if answers(pending[j]).Some? {
      var msg :| msg in batch && msg.stream == stream && msg.providerMessageId == answers(pending[j]).value.id;
      var i :| 0 <= i < |batch| && batch[i] == msg;
      assert Tried(after, KeyOf(cfg, batch[i]), Attempts(before, KeyOf(cfg, batch[i])) + 1);
    }
  }

  lemma {:induction false} ListedDoesNotRaise(stream: StreamRef, mails: seq<Answer<Mail>>, link: string, order: nat)
    requires forall mail | mail in mails :: mail.Ok?
    ensures !Listed(stream, mails, link, order).raised
  {
    if mails != [] {
      assert mails[0] in mails;
      ListedDoesNotRaise(stream, mails[1..], link, order + 1);
    }
  }

  lemma SweepIsSteady(client: Client, notes: seq<Note>, answers: Answers, d: Desk, stream: StreamRef,
                      cursor: Option<Cursor>, found: Batch)
    requires Steady(client, notes, answers) && !found.raised
    ensures !SweptAfter(client, d, stream, cursor, found).raised
    ensures d.sweeps == [] ==> SweptAfter(client, d, stream, cursor, found).messages == []
  {
    if stream in d.sweeps {
      assert Lists(client.delta(d.rounds, stream, Token(cursor)));
      var listing := client.delta(d.rounds, stream, Token(cursor)).value;
      ListedDoesNotRaise(stream, listing.mails, listing.link, d.order + |found.messages|);
    }
  }

  lemma {:induction false} StreamPushes(cfg: Config, handle: Handler, client: Client, answers: Answers,
                                        notes: seq<Note>, s: State, d: Desk, stream: StreamRef, r: nat)
    requires Sound(cfg, handle) && Patient(handle) && Steady(client, notes, answers)
    requires Waits(cfg, client, answers, notes, s, d, r)
    ensures Pushes(cfg, client, answers, notes, s, d, RunGraphStream(cfg, handle, client, s, d, stream), [stream], r)
  {
    var found := Looked(client, stream, d.rounds, d.pending, 0, d.order);
    var swept := SweptAfter(client, d, stream, CursorOf(cfg, s, stream), found);
    var batch := found.messages + swept.messages;
    var run := RunGraphStream(cfg, handle, client, s, d, stream);
    LookedIsSteady(cfg, client, answers, notes, stream, d.rounds, d.pending, 0, d.order);
    SweepIsSteady(client, notes, answers, d, stream, CursorOf(cfg, s, stream), found);
    LookedFindsAll(client, stream, d.rounds, d.pending, 0, d.order);
    StreamTries(cfg, handle, s, stream, batch, false);
    StreamKeepsQuiet(cfg, handle, s, stream, batch, false);
    if cfg.maxAttempts <= r + 1 {
      BatchHasLastChance(cfg, client, answers, notes, s.claims, batch, r);
    }
    forall note | note in d.pending && client.resolve(note) in [stream]
      ensures NoteTried(cfg, client, answers, run.state.claims, note, r + 1)
    {
      var j :| 0 <= j < |d.pending| && d.pending[j] == note;
      assert Found(client, stream, d.rounds, d.pending, j, found.messages);
      FoundIsTried(cfg, client, answers, s.claims, run.state.claims, stream, d.rounds, d.pending, j, batch, r);
    }
  }

  /** A way to run streams that pushes each one. */
  ghost predicate Pushing(cfg: Config, client: Client, answers: Answers, notes: seq<Note>, runner: StreamRunner,
                          r: nat) {
    forall s, d, stream | Waits(cfg, client, answers, notes, s, d, r) ::
      Pushes(cfg, client, answers, notes, s, d, runner(s, d, stream), [stream], r)
  }

  lemma RunningPushes(cfg: Config, handle: Handler, client: Client, answers: Answers, notes: seq<Note>, r: nat)
    requires Sound(cfg, handle) && Patient(handle) && Steady(client, notes, answers)
    ensures Pushing(cfg, client, answers, notes, Running(cfg, handle, client), r)
  {
    forall s, d, stream | Waits(cfg, client, answers, notes, s, d, r)
      ensures Pushes(cfg, client, answers, notes, s, d, Running(cfg, handle, client)(s, d, stream), [stream], r)
    {
      StreamPushes(cfg, handle, client, answers, notes, s, d, stream, r);
    }
  }

  lemma TriedStays(cfg: Config, client: Client, answers: Answers, before: Claims, after: Claims, note: Note, r: nat)
    requires Grown(before, after) && NoteTried(cfg, client, answers, before, note, r)
    ensures NoteTried(cfg, client, answers, after, note, r)
  {
  }

  lemma {:induction false} OthersAreOfThem(client: Client, stream: StreamRef, pending: seq<Note>)
    ensures forall note | note in Others(client, stream, pending) :: note in pending
  {
    if pending != [] {
      OthersAreOfThem(client, stream, pending[1..]);
    }
  }

  lemma {:induction false} StreamsPush(cfg: Config, client: Client, answers: Answers, notes: seq<Note>,
                                       runner: StreamRunner, s: State, d: Desk, streams: seq<StreamRef>, r: nat)
    requires Pushing(cfg, client, answers, notes, runner, r) && Drains(client, runner)
    requires Waits(cfg, client, answers, notes, s, d, r)
    ensures Pushes(cfg, client, answers, notes, s, d, RunGraphStreams(runner, s, d, streams), streams, r)
    decreases |streams|
  {
    if streams != [] {
      var first := runner(s, d, streams[0]);
      assert Pushes(cfg, client, answers, notes, s, d, first, [streams[0]], r);
      assert DrainsOne(client, d, first, streams[0]);
      OthersAreOfThem(client, streams[0], d.pending);
      forall note | note in notes ensures NoteTried(cfg, client, answers, first.state.claims, note, r) {
        TriedStays(cfg, client, answers, s.claims, first.state.claims, note, r);
      }
      assert Waits(cfg, client, answers, notes, first.state, first.desk, r);
      StreamsPush(cfg, client, answers, notes, runner, first.state, first.desk, streams[1..], r);
      PushesCompose(cfg, client, answers, notes, s, d, first,
                    RunGraphStreams(runner, first.state, first.desk, streams[1..]), streams, r);
    }
  }

  lemma {:induction false} PushesCompose(cfg: Config, client: Client, answers: Answers, notes: seq<Note>, s: State,
                                         d: Desk, first: GraphRun, rest: GraphRun, streams: seq<StreamRef>, r: nat)
    requires streams != [] && Pushes(cfg, client, answers, notes, s, d, first, [streams[0]], r)
    requires first.desk.pending == Others(client, streams[0], d.pending)
    requires Pushes(cfg, client, answers, notes, first.state, first.desk, rest, streams[1..], r)
    ensures Pushes(cfg, client, answers, notes, s, d,
                   Joined(first, rest), streams, r)
  {
    forall note | note in d.pending && client.resolve(note) in streams
      ensures NoteTried(cfg, client, answers, rest.state.claims, note, r + 1)
    {
      if client.resolve(note) == streams[0] {
        TriedStays(cfg, client, answers, first.state.claims, rest.state.claims, note, r + 1);
      } else {
        OthersKeep(client, streams[0], d.pending, note);
        assert streams == [streams[0]] + streams[1..];
      }
    }
  }

  // ---- Deliveries of one message ----

  /** Before the next delivery: no note waits, nor any sweep after the first delivery,
      nobody holds a claim, and `r` tries are behind. */
  ghost predicate Between(cfg: Config, client: Client, answers: Answers, notes: seq<Note>, s: State, d: Desk, r: nat) {
    && Quiet(s.claims) && d.pending == [] && Unrepeated(d.sweeps) && (0 < r ==> d.sweeps == [])
    && NotesTried(cfg, client, answers, s.claims, notes, r)
  }

  lemma {:induction false} OneDelivery(cfg: Config, world: World, client: Client, answers: Answers, notes: seq<Note>,
                                       s: State, d: Desk, r: nat)
    requires Obliging(world) && Steady(client, notes, answers) && Between(cfg, client, answers, notes, s, d, r)
    ensures var run := RunGraph(cfg, Handling(cfg, world), client, s, Submitted(d, notes));
            && !run.escaped && Between(cfg, client, answers, notes, run.state, run.desk, r + 1)
            && (cfg.maxAttempts <= r + 1 ==> run.state.report.AllTerminal())
  {
    var handle, submitted, start := Handling(cfg, world), Submitted(d, notes), s.(report := EMPTY_REPORT);
    var streams := SyncStreams(client, submitted);
    assert submitted.pending == notes;
    ProcessIsSound(cfg, world);
    ObligingIsPatient(cfg, world);
    RunningPushes(cfg, handle, client, answers, notes, r);
    RunningDrains(cfg, handle, client);
    StreamsPush(cfg, client, answers, notes, Running(cfg, handle, client), start, submitted, streams, r);
    var run := RunGraph(cfg, handle, client, s, submitted);
    assert Pushes(cfg, client, answers, notes, start, submitted, run, streams, r);
    EveryNoteIsListed(client, submitted);
    NormalRunEmptiesTheDesk(cfg, handle, client, s, submitted);
    AllTerminalIsSettled(cfg, world, client, s, submitted);
    RunningServes(cfg, handle, client);
    StreamsServe(cfg, client, Running(cfg, handle, client), start, submitted, streams);
  }

  /** The n-th delivery in a row of one message, after which the next begins. */
  function Redelivered(handler: SignalHandler, s: State, d: Desk, signal: Signal, n: nat): (State, Desk, Verdict,
      Served)
    requires 1 <= n
  {
    if n == 1 then handler(s, d, signal)
    else
      var (s', d', _, _) := Redelivered(handler, s, d, signal, n - 1);
      handler(s', d', signal)
  }

  lemma {:induction false} HandledOnce(cfg: Config, world: World, client: Client, answers: Answers, notes: seq<Note>,
                                       lifecycle: seq<Answer<Option<StreamRef>>>, s: State, d: Desk, r: nat)
    requires Obliging(world) && Steady(client, notes, answers) && notes != []
    requires Between(cfg, client, answers, notes, s, d, r)
    ensures var (s', d', verdict, _) := SignalHandling(cfg, world, client)(s, d, Signal(Ok(notes), lifecycle));
            Between(cfg, client, answers, notes, s', d', r + 1) && (cfg.maxAttempts <= r + 1 ==> verdict == Settled)
  {
    OneDelivery(cfg, world, client, answers, notes, s, d, r);
  }

  /** A message whose mails the server keeps answering for is settled by its
      `max(1, maxAttempts)`-th delivery at the latest, however the work fails. */
  lemma {:induction false} RedeliveryConverges(cfg: Config, world: World, client: Client, answers: Answers,
                                               notes: seq<Note>, lifecycle: seq<Answer<Option<StreamRef>>>,
                                               s: State, d: Desk, n: nat)
    requires Obliging(world) && Steady(client, notes, answers) && notes != []
    requires Quiet(s.claims) && d.pending == [] && Unrepeated(d.sweeps)
    requires 1 <= n
    ensures var (s', d', verdict, _) := Redelivered(SignalHandling(cfg, world, client), s, d,
                                                 Signal(Ok(notes), lifecycle), n);
            Between(cfg, client, answers, notes, s', d', n) && (cfg.maxAttempts <= n ==> verdict == Settled)
  {
    var handler, signal := SignalHandling(cfg, world, client), Signal(Ok(notes), lifecycle);
    if n == 1 {
      HandledOnce(cfg, world, client, answers, notes, lifecycle, s, d, 0);
    } else {
      RedeliveryConverges(cfg, world, client, answers, notes, lifecycle, s, d, n - 1);
      var (s', d', _, _) := Redelivered(handler, s, d, signal, n - 1);
      HandledOnce(cfg, world, client, answers, notes, lifecycle, s', d', n - 1);
    }
  }
}
