/** What a run over the notification queue accounts for and leaves done. */
module GraphRuns {
  import opened Models
  import opened Observability
  import opened MemoryStores
  import opened Delivery
  import opened Visits
  import opened Runs
  import opened LowWater
  import opened Convergence
  import opened Graph
  import Identity

  /** Nobody holds a claim. */
  ghost predicate Quiet(claims: Claims) {
    forall key | key in claims :: claims[key].claimed ==> claims[key].done
  }

  /** The lookup did not raise, and the mail it found, if any, is done. */
  predicate Answered(cfg: Config, client: Client, claims: Claims, a: Asked) {
    match a.answer
    case Raise(_) => false
    case Ok(None) => true
    case Ok(Some(mail)) => IsDone(claims, Identity.IdempotencyKey(cfg.tenant, client.resolve(a.note).mailbox, mail.id))
  }

  ghost predicate IsAsked(note: Note, asked: seq<Asked>) {
    exists a :: a in asked && a.note == note
  }

  /** Every one of these notes was looked up. */
  ghost predicate AllAsked(notes: seq<Note>, asked: seq<Asked>) {
    forall note | note in notes :: IsAsked(note, asked)
  }

  /** Every lookup made was answered with a mail that is done or with none, and every message
      fetched, from notes and sweeps alike, is done. */
  ghost predicate AllServed(cfg: Config, client: Client, claims: Claims, asked: seq<Asked>, fetched: seq<RawMessage>) {
    && (forall a | a in asked :: Answered(cfg, client, claims, a))
    && (forall msg | msg in fetched :: IsDone(claims, KeyOf(cfg, msg)))
  }

  lemma ServedStays(cfg: Config, client: Client, before: Claims, after: Claims, asked: seq<Asked>,
                    fetched: seq<RawMessage>)
    requires AllServed(cfg, client, before, asked, fetched) && DoneStays(before, after)
    ensures AllServed(cfg, client, after, asked, fetched)
  {
    forall a | a in asked ensures Answered(cfg, client, after, a) {
      assert Answered(cfg, client, before, a);
    }
  }

  /** What one stream's run, or a whole run, does for the notes of its streams. */
  ghost predicate Serves(cfg: Config, client: Client, s: State, d: Desk, run: GraphRun, streams: seq<StreamRef>) {
    && |run.fetched| == |run.steps| && DoneStays(s.claims, run.state.claims)
    && Accounted(s.report, run.state.report, run.steps, Escaped in run.steps) && (Escaped in run.steps ==> run.escaped)
    && (!run.escaped ==>
          forall note | note in d.pending && client.resolve(note) in streams :: IsAsked(note, run.asked))
    && (Quiet(s.claims) ==> (Quiet(run.state.claims) <==> Escaped !in run.steps))
    && (Quiet(s.claims) && !run.escaped && Step.Pending !in run.steps ==>
          AllServed(cfg, client, run.state.claims, run.asked, run.fetched))
  }

  // ---- One stream ----

  lemma {:induction false} StreamKeepsQuiet(cfg: Config, handle: Handler, s: State, stream: StreamRef,
                                            batch: seq<RawMessage>, blocked: bool)
    requires Sound(cfg, handle)
    ensures var run := RunStream(cfg, handle, s, stream, batch, blocked);
            && DoneStays(s.claims, run.state.claims)
            && (Quiet(s.claims) ==> (Quiet(run.state.claims) <==> !run.escaped))
    decreases |batch|
  {
    if batch != [] {
      var (next, step) := Advance(cfg, handle, s, stream, batch[0], blocked);
      EveryTurn(cfg, handle, s, stream, batch[0], blocked);
      if step.Escaped? {
        assert KeyOf(cfg, batch[0]) in next.claims && !next.claims[KeyOf(cfg, batch[0])].done;
      } else {
        StreamKeepsQuiet(cfg, handle, next, stream, batch[1..], blocked || step.Pending?);
      }
    }
  }

  /** A lookup that did not raise found every mail of the stream's notes. */
  lemma {:induction false} LookedFindsAll(client: Client, stream: StreamRef, round: nat, pending: seq<Note>, i: nat,
                                          order: nat)
    requires i <= |pending| && !Looked(client, stream, round, pending, i, order).raised
    ensures forall j | i <= j < |pending| && client.resolve(pending[j]) == stream ::
              Found(client, stream, round, pending, j, Looked(client, stream, round, pending, i, order).messages)
    decreases |pending| - i
  {
    if i < |pending| {
      var answer := client.lookup(round, i, pending[i]);
      var mine := client.resolve(pending[i]) == stream;
      var step := if mine && answer.value.Some? then 1 else 0;
      var messages := Looked(client, stream, round, pending, i, order).messages;
      LookedFindsAll(client, stream, round, pending, i + 1, order + step);
      var rest := Looked(client, stream, round, pending, i + 1, order + step).messages;
      assert messages[step..] == rest;
      assert forall msg | msg in rest :: msg in messages;
      if step == 1 {
        assert messages[0] in messages;
      }
    }
  }

  ghost predicate Found(client: Client, stream: StreamRef, round: nat, pending: seq<Note>, j: nat,
                        messages: seq<RawMessage>)
    requires j < |pending|
  {
    match client.lookup(round, j, pending[j])
    case Raise(_) => false
    case Ok(None) => true
    case Ok(Some(mail)) => exists msg :: msg in messages && msg.stream == stream && msg.providerMessageId == mail.id
  }

  predicate IsLookup(client: Client, stream: StreamRef, round: nat, pending: seq<Note>, j: nat, a: Asked) {
    j < |pending| && client.resolve(pending[j]) == stream && a == Asked(pending[j], client.lookup(round, j, pending[j]))
  }

  /** This is the lookup of one of the stream's notes, from the i-th on. */
  ghost predicate AsksOne(client: Client, stream: StreamRef, round: nat, pending: seq<Note>, i: nat, a: Asked) {
    exists j {:trigger IsLookup(client, stream, round, pending, j, a)} :: i <= j
      && IsLookup(client, stream, round, pending, j, a)
  }

  /** The lookups are those of the stream's notes. */
  lemma {:induction false} LookupsAreOfNotes(client: Client, stream: StreamRef, round: nat, pending: seq<Note>, i: nat)
    requires i <= |pending|
    ensures forall a | a in Lookups(client, stream, round, pending, i) :: AsksOne(client, stream, round, pending, i, a)
    decreases |pending| - i
  {
    if i < |pending| {
      LookupsAreOfNotes(client, stream, round, pending, i + 1);
      var rest := Lookups(client, stream, round, pending, i + 1);
      forall a | a in Lookups(client, stream, round, pending, i)
        ensures AsksOne(client, stream, round, pending, i, a)
      {
        if a in rest {
          assert AsksOne(client, stream, round, pending, i + 1, a);
        } else {
          assert IsLookup(client, stream, round, pending, i, a);
        }
      }
    }
  }

  /** If none raises, they are all of the stream's notes. */
  lemma {:induction false} EveryNoteIsLookedUp(client: Client, stream: StreamRef, round: nat, pending: seq<Note>,
                                               i: nat,
                                               order: nat)
    requires i <= |pending| && !Looked(client, stream, round, pending, i, order).raised
    ensures forall j | i <= j < |pending| && client.resolve(pending[j]) == stream ::
              Asked(pending[j], client.lookup(round, j, pending[j])) in Lookups(client, stream, round, pending, i)
    decreases |pending| - i
  {
    if i < |pending| {
      var answer := client.lookup(round, i, pending[i]);
      var found := client.resolve(pending[i]) == stream && answer.Ok? && answer.value.Some?;
      EveryNoteIsLookedUp(client, stream, round, pending, i + 1, order + if found then 1 else 0);
    }
  }

  /** A stream that settles has served its lookups. */
  lemma {:induction false} StreamAnswers(cfg: Config, client: Client, claims: Claims, d: Desk, stream: StreamRef,
                                         messages: seq<RawMessage>)
    requires var notes := Looked(client, stream, d.rounds, d.pending, 0, d.order);
             !notes.raised && forall msg | msg in notes.messages :: msg in messages
    requires forall msg | msg in messages :: IsDone(claims, KeyOf(cfg, msg))
    ensures AllServed(cfg, client, claims, Lookups(client, stream, d.rounds, d.pending, 0), messages)
  {
    LookedFindsAll(client, stream, d.rounds, d.pending, 0, d.order);
    LookupsAreOfNotes(client, stream, d.rounds, d.pending, 0);
    forall a | a in Lookups(client, stream, d.rounds, d.pending, 0) ensures Answered(cfg, client, claims, a) {
      assert AsksOne(client, stream, d.rounds, d.pending, 0, a);
      var j :| 0 <= j && IsLookup(client, stream, d.rounds, d.pending, j, a);
      assert Found(client, stream, d.rounds, d.pending, j,
                   Looked(client, stream, d.rounds, d.pending, 0, d.order).messages);
    }
  }

  lemma {:induction false} StreamServes(cfg: Config, handle: Handler, client: Client, s: State, d: Desk,
                                        stream: StreamRef)
    requires Sound(cfg, handle)
    ensures Serves(cfg, client, s, d, RunGraphStream(cfg, handle, client, s, d, stream), [stream])
  {
    var notes := Looked(client, stream, d.rounds, d.pending, 0, d.order);
    var batch := notes.messages + SweptAfter(client, d, stream, CursorOf(cfg, s, stream), notes).messages;
    var run := RunGraphStream(cfg, handle, client, s, d, stream);
    StepsWithin(cfg, handle, s, stream, batch, false);
    StreamAccounts(cfg, handle, s, stream, batch, false);
    StreamKeepsQuiet(cfg, handle, s, stream, batch, false);
    if !run.escaped {
      EveryNoteIsLookedUp(client, stream, d.rounds, d.pending, 0, d.order);
      forall note | note in d.pending && client.resolve(note) in [stream]
        ensures IsAsked(note, run.asked)
      {
        var j :| 0 <= j < |d.pending| && d.pending[j] == note;
        assert Asked(note, client.lookup(d.rounds, j, note)) in run.asked;
      }
      assert batch[..|run.steps|] == batch;
      if Quiet(s.claims) && Step.Pending !in run.steps {
        StreamSettles(cfg, handle, s, stream, batch, false);
        StreamAnswers(cfg, client, run.state.claims, d, stream, batch);
      }
    }
  }

  // ---- All streams ----

  ghost predicate Serving(cfg: Config, client: Client, runner: StreamRunner) {
    forall s, d, stream :: Serves(cfg, client, s, d, runner(s, d, stream), [stream])
  }

  lemma RunningServes(cfg: Config, handle: Handler, client: Client)
    requires Sound(cfg, handle)
    ensures Serving(cfg, client, Running(cfg, handle, client))
  {
    forall s, d, stream ensures Serves(cfg, client, s, d, Running(cfg, handle, client)(s, d, stream), [stream]) {
      StreamServes(cfg, handle, client, s, d, stream);
    }
  }

  lemma {:induction false} StreamsServe(cfg: Config, client: Client, runner: StreamRunner, s: State, d: Desk,
                                        streams: seq<StreamRef>)
    requires Serving(cfg, client, runner) && Drains(client, runner)
    ensures Serves(cfg, client, s, d, RunGraphStreams(runner, s, d, streams), streams)
    decreases |streams|
  {
    if streams != [] {
      var first := runner(s, d, streams[0]);
      assert Serves(cfg, client, s, d, first, [streams[0]]);
      if first.escaped {
        EscapedServesMore(cfg, client, s, d, first, [streams[0]], streams);
      } else {
        var rest := RunGraphStreams(runner, first.state, first.desk, streams[1..]);
        StreamsServe(cfg, client, runner, first.state, first.desk, streams[1..]);
        assert DrainsOne(client, d, first, streams[0]);
        ServesCompose(cfg, client, s, d, first, rest, streams);
      }
    }
  }

  lemma EscapedServesMore(cfg: Config, client: Client, s: State, d: Desk, run: GraphRun, streams: seq<StreamRef>,
                          more: seq<StreamRef>)
    requires Serves(cfg, client, s, d, run, streams) && run.escaped
    ensures Serves(cfg, client, s, d, run, more)
  {
  }

  lemma {:induction false} OthersKeep(client: Client, stream: StreamRef, pending: seq<Note>, note: Note)
    requires note in pending && client.resolve(note) != stream
    ensures note in Others(client, stream, pending)
  {
    if note != pending[0] {
      OthersKeep(client, stream, pending[1..], note);
    }
  }

  lemma {:induction false} ServesCompose(cfg: Config, client: Client, s: State, d: Desk, first: GraphRun,
                                         rest: GraphRun, streams: seq<StreamRef>)
    requires streams != [] && !first.escaped
    requires Serves(cfg, client, s, d, first, [streams[0]])
    requires first.desk.pending == Others(client, streams[0], d.pending)
    requires Serves(cfg, client, first.state, first.desk, rest, streams[1..])
    ensures Serves(cfg, client, s, d, Joined(first, rest), streams)
  {
    var run := Joined(first, rest);
    PendingsAdd(first.steps, rest.steps);
    assert Escaped in run.steps <==> Escaped in rest.steps;
    assert Accounted(s.report, run.state.report, run.steps, Escaped in run.steps);
    if !run.escaped {
      JoinedAsks(client, d, first, rest, streams);
      if Quiet(s.claims) && Step.Pending !in run.steps {
        assert forall step | step in first.steps :: step in run.steps;
        assert forall step | step in rest.steps :: step in run.steps;
        ServedStays(cfg, client, first.state.claims, run.state.claims, first.asked, first.fetched);
      }
    }
  }

  /** Between them, two runs ask for the notes of all their streams. */
  lemma {:induction false} JoinedAsks(client: Client, d: Desk, first: GraphRun, rest: GraphRun, streams: seq<StreamRef>)
    requires streams != []
    requires forall note | note in d.pending && client.resolve(note) in [streams[0]] ::
               IsAsked(note, first.asked)
    requires forall note | note in Others(client, streams[0], d.pending) && client.resolve(note) in streams[1..] ::
               IsAsked(note, rest.asked)
    ensures forall note | note in d.pending && client.resolve(note) in streams ::
              IsAsked(note, Joined(first, rest).asked)
  {
    forall note | note in d.pending && client.resolve(note) in streams
      ensures IsAsked(note, Joined(first, rest).asked)
    {
      if client.resolve(note) != streams[0] {
        OthersKeep(client, streams[0], d.pending, note);
        assert streams == [streams[0]] + streams[1..];
      }
    }
  }

  // ---- A run ----

  /** What a whole run does for the notes and streams of its desk. */
  lemma RunServes(cfg: Config, world: World, client: Client, s: State, d: Desk)
    ensures Serves(cfg, client, s.(report := EMPTY_REPORT), d, RunGraph(cfg, Handling(cfg, world), client, s, d),
                   SyncStreams(client, d))
  {
    var handle := Handling(cfg, world);
    ProcessIsSound(cfg, world);
    RunningServes(cfg, handle, client);
    RunningDrains(cfg, handle, client);
    StreamsServe(cfg, client, Running(cfg, handle, client), s.(report := EMPTY_REPORT), d, SyncStreams(client, d));
  }

  /** The report tells whether a step of the run is pending or escaped. */
  lemma ReportTells(cfg: Config, world: World, client: Client, s: State, d: Desk)
    ensures var run := RunGraph(cfg, Handling(cfg, world), client, s, d);
            run.state.report.AllTerminal() <==> Step.Pending !in run.steps && Escaped !in run.steps
  {
    var run := RunGraph(cfg, Handling(cfg, world), client, s, d);
    RunServes(cfg, world, client, s, d);
    PendingsNone(run.steps);
    TerminalIsTraced(run.state.report);
  }

  /** The report tells: from quiet stores, a run whose report is all terminal has looked up
      every note that was waiting, has done all the mail it was answered with or fetched, and
      has left the stores quiet. */
  lemma AllTerminalIsSettled(cfg: Config, world: World, client: Client, s: State, d: Desk)
    requires Quiet(s.claims)
    ensures var run := RunGraph(cfg, Handling(cfg, world), client, s, d);
            && DoneStays(s.claims, run.state.claims)
            && (run.state.report.AllTerminal() <==> Step.Pending !in run.steps && Escaped !in run.steps)
            && (Quiet(run.state.claims) <==> Escaped !in run.steps) && (Escaped in run.steps ==> run.escaped)
            && (!run.escaped ==> AllAsked(d.pending, run.asked))
            && (!run.escaped && run.state.report.AllTerminal() ==>
                  AllServed(cfg, client, run.state.claims, run.asked, run.fetched))
  {
    RunServes(cfg, world, client, s, d);
    ReportTells(cfg, world, client, s, d);
    EveryNoteIsListed(client, d);
  }

  lemma EveryNoteIsListed(client: Client, d: Desk)
    ensures forall note | note in d.pending :: client.resolve(note) in SyncStreams(client, d)
  {
    StreamsAreThoseWaiting(client, d);
    forall note | note in d.pending ensures client.resolve(note) in SyncStreams(client, d) {
      assert client.resolve(note) in Waiting(client, d);
    }
  }

  // ---- Lookups are the mail server's ----

  /** The answer is one the server gives for the note. */
  ghost predicate IsGiven(client: Client, a: Asked) {
    exists round, i :: a.answer == client.lookup(round, i, a.note)
  }

  lemma {:induction false} MadeIsPart(asked: seq<Asked>, consumed: nat)
    ensures forall a | a in Made(asked, consumed) :: a in asked
  {
    if asked != [] && 0 < consumed {
      var found := asked[0].answer.Ok? && asked[0].answer.value.Some?;
      MadeIsPart(asked[1..], if found then consumed - 1 else consumed);
      assert asked == [asked[0]] + asked[1..];
    }
  }

  lemma {:induction false} StreamAsks(cfg: Config, handle: Handler, client: Client, s: State, d: Desk,
                                      stream: StreamRef)
    ensures forall a | a in RunGraphStream(cfg, handle, client, s, d, stream).asked :: IsGiven(client, a)
  {
    var run, asked := RunGraphStream(cfg, handle, client, s, d, stream),
        Lookups(client, stream, d.rounds, d.pending, 0);
    MadeIsPart(asked, |run.steps|);
    LookupsAreOfNotes(client, stream, d.rounds, d.pending, 0);
    forall a | a in run.asked ensures IsGiven(client, a) {
      assert AsksOne(client, stream, d.rounds, d.pending, 0, a);
      var j :| 0 <= j && IsLookup(client, stream, d.rounds, d.pending, j, a);
      assert a.answer == client.lookup(d.rounds, j, a.note);
    }
  }

  ghost predicate AsksServer(client: Client, runner: StreamRunner) {
    forall s, d, stream, a | a in runner(s, d, stream).asked :: IsGiven(client, a)
  }

  lemma {:induction false} StreamsAsk(client: Client, runner: StreamRunner, s: State, d: Desk, streams: seq<StreamRef>)
    requires AsksServer(client, runner)
    ensures forall a | a in RunGraphStreams(runner, s, d, streams).asked :: IsGiven(client, a)
    decreases |streams|
  {
    if streams != [] {
      var first := runner(s, d, streams[0]);
      if !first.escaped {
        StreamsAsk(client, runner, first.state, first.desk, streams[1..]);
      }
    }
  }

  /** Every lookup on the account of a run has an answer the mail server gave. */
  lemma {:induction false} RunAsksServer(cfg: Config, handle: Handler, client: Client, s: State, d: Desk)
    ensures forall a | a in RunGraph(cfg, handle, client, s, d).asked :: IsGiven(client, a)
  {
    var runner := Running(cfg, handle, client);
    forall s, d, stream, a | a in runner(s, d, stream).asked ensures IsGiven(client, a) {
      StreamAsks(cfg, handle, client, s, d, stream);
    }
    StreamsAsk(client, runner, s.(report := EMPTY_REPORT), d, SyncStreams(client, d));
  }

  // ---- Runs no visit escapes ----

  lemma {:induction false} PatientStream(cfg: Config, handle: Handler, s: State, stream: StreamRef,
                                         batch: seq<RawMessage>, blocked: bool)
    requires Patient(handle)
    ensures Escaped !in RunStream(cfg, handle, s, stream, batch, blocked).steps
    decreases |batch|
  {
    if batch != [] {
      var (next, step) := Advance(cfg, handle, s, stream, batch[0], blocked);
      assert !handle(Counted(s), batch[0]).1.Escaped?;
      PatientStream(cfg, handle, next, stream, batch[1..], blocked || step.Pending?);
    }
  }

  ghost predicate NoneBursts(runner: StreamRunner) {
    forall s, d, stream :: Escaped !in runner(s, d, stream).steps
  }

  lemma {:induction false} StreamsBurstNot(runner: StreamRunner, s: State, d: Desk, streams: seq<StreamRef>)
    requires NoneBursts(runner)
    ensures Escaped !in RunGraphStreams(runner, s, d, streams).steps
    decreases |streams|
  {
    if streams != [] {
      var first := runner(s, d, streams[0]);
      assert Escaped !in first.steps;
      if !first.escaped {
        StreamsBurstNot(runner, first.state, first.desk, streams[1..]);
      }
    }
  }

  lemma {:induction false} ObligingRun(cfg: Config, world: World, client: Client, s: State, d: Desk)
    requires Obliging(world)
    ensures Escaped !in RunGraph(cfg, Handling(cfg, world), client, s, d).steps
  {
    var handle := Handling(cfg, world);
    ObligingIsPatient(cfg, world);
    forall s, d, stream ensures Escaped !in Running(cfg, handle, client)(s, d, stream).steps {
      var notes := Looked(client, stream, d.rounds, d.pending, 0, d.order);
      PatientStream(cfg, handle, s, stream,
                    notes.messages + SweptAfter(client, d, stream, CursorOf(cfg, s, stream), notes).messages, false);
    }
    StreamsBurstNot(Running(cfg, handle, client), s.(report := EMPTY_REPORT), d, SyncStreams(client, d));
  }
}
