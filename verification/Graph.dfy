/** The notification-fed provider: a queue of references, drained stream by stream while the
    pipeline consumes what they point to. */
module Graph {
  import opened Models
  import opened Observability
  import opened MemoryStores
  import opened Delivery
  import opened Pipelines
  import opened Visits
  import opened Runs
  import opened Convergence
  import Providers

  datatype Note = Note(subscriptionId: string, userId: string, messageId: string)

  /** A message as the mail server returns it, attachments included. */
  datatype Mail = Mail(id: string, raw: Bytes, threadKey: string, receivedAt: Time)

  /** A delta listing; reading the attachments of one of its mails may still fail. */
  datatype Listing = Listing(mails: seq<Answer<Mail>>, link: string)

  /** The mail server, asked once for each pending note or sweep of a fetch; `round` numbers
      the fetches and `i` the notes of one.  No mail means the message is gone. */
  datatype Client = Client(
    resolve: Note -> StreamRef,
    lookup: (nat, nat, Note) -> Answer<Option<Mail>>,
    delta: (nat, StreamRef, Option<string>) -> Answer<Listing>)

  /** What the provider keeps between runs. */
  datatype Desk = Desk(pending: seq<Note>, sweeps: seq<StreamRef>, order: nat, rounds: nat)

  /** What a fetch yields until it ends or raises. */
  datatype Batch = Batch(messages: seq<RawMessage>, raised: bool)

  function ToRaw(stream: StreamRef, mail: Mail, cursor: Cursor): RawMessage {
    RawMessage("graph", mail.id, stream, |mail.raw|, mail.receivedAt, cursor, mail.raw, mail.threadKey)
  }

  function NoteCursor(stream: StreamRef, order: nat): Cursor {
    Cursor(stream.Key() + "#" + Providers.Decimal(order), order)
  }

  /** The mail of the stream's notes, from the i-th note on. */
  function Looked(client: Client, stream: StreamRef, round: nat, pending: seq<Note>, i: nat, order: nat): Batch
    requires i <= |pending|
    decreases |pending| - i
  {
    if i == |pending| then Batch([], false)
    else if client.resolve(pending[i]) != stream then Looked(client, stream, round, pending, i + 1, order)
    else
      var answer := client.lookup(round, i, pending[i]);
      if answer.Raise? then Batch([], true)
      else if answer.value.None? then Looked(client, stream, round, pending, i + 1, order)
      else
        var rest := Looked(client, stream, round, pending, i + 1, order + 1);
        rest.(messages := [ToRaw(stream, answer.value.value, NoteCursor(stream, order + 1))] + rest.messages)
  }

  /** One lookup made and its answer. */
  datatype Asked = Asked(note: Note, answer: Answer<Option<Mail>>)

  /** The lookups of the stream's notes, from the i-th note to the first that raises. */
  function Lookups(client: Client, stream: StreamRef, round: nat, pending: seq<Note>, i: nat): seq<Asked>
    requires i <= |pending|
    decreases |pending| - i
  {
    if i == |pending| then []
    else if client.resolve(pending[i]) != stream then Lookups(client, stream, round, pending, i + 1)
    else
      var answer := client.lookup(round, i, pending[i]);
      [Asked(pending[i], answer)] + if answer.Raise? then [] else Lookups(client, stream, round, pending, i + 1)
  }

  /** The lookups made by the time `consumed` mails were taken and no more was asked for. */
  function Made(asked: seq<Asked>, consumed: nat): seq<Asked> {
    if asked == [] || consumed == 0 then []
    else
      var found := asked[0].answer.Ok? && asked[0].answer.value.Some?;
      [asked[0]] + Made(asked[1..], if found then consumed - 1 else consumed)
  }

  function Listed(stream: StreamRef, mails: seq<Answer<Mail>>, link: string, order: nat): Batch {
    if mails == [] then Batch([], false)
    else if mails[0].Raise? then Batch([], true)
    else
      var rest := Listed(stream, mails[1..], link, order + 1);
      rest.(messages := [ToRaw(stream, mails[0].value, Cursor(link, order + 1))] + rest.messages)
  }

  /** Only a URL is a resumable token. */
  function Token(cursor: Option<Cursor>): Option<string> {
    if cursor.Some? && "http" <= cursor.value.value then Some(cursor.value.value) else None
  }

  function Swept(client: Client, stream: StreamRef, round: nat, cursor: Option<Cursor>, order: nat): Batch {
    var listing := client.delta(round, stream, Token(cursor));
    if listing.Raise? then Batch([], true) else Listed(stream, listing.value.mails, listing.value.link, order)
  }

  /** A sweep follows the notes if one was requested and the notes were all answered. */
  function SweptAfter(client: Client, d: Desk, stream: StreamRef, cursor: Option<Cursor>, notes: Batch): Batch {
    if notes.raised || stream !in d.sweeps then Batch([], notes.raised)
    else Swept(client, stream, d.rounds, cursor, d.order + |notes.messages|)
  }

  function Others(client: Client, stream: StreamRef, pending: seq<Note>): seq<Note> {
    if pending == [] then []
    else (if client.resolve(pending[0]) != stream then [pending[0]] else []) + Others(client, stream, pending[1..])
  }

  function OtherSweeps(stream: StreamRef, sweeps: seq<StreamRef>): seq<StreamRef> {
    if sweeps == [] then []
    else if sweeps[0] == stream then sweeps[1..]
    else [sweeps[0]] + OtherSweeps(stream, sweeps[1..])
  }

  /** The consumer asks for more after the last of the notes. */
  predicate Begins(notes: Batch, consumed: nat, escaped: bool) {
    !notes.raised && !(escaped && consumed <= |notes.messages|)
  }

  /** The queue after `consumed` of the batch's messages were taken: a stream's notes and its
      request for a sweep leave it before the sweep begins. */
  function Drained(client: Client, d: Desk, stream: StreamRef, notes: Batch, consumed: nat, escaped: bool): Desk {
    var begun := d.(order := d.order + consumed, rounds := d.rounds + 1);
    if !Begins(notes, consumed, escaped) then begun
    else begun.(pending := Others(client, stream, d.pending), sweeps := OtherSweeps(stream, d.sweeps))
  }

  function AddNew(seen: seq<StreamRef>, stream: StreamRef): seq<StreamRef> {
    if stream in seen then seen else seen + [stream]
  }

  function NoteStreams(client: Client, pending: seq<Note>): seq<StreamRef> {
    if pending == [] then []
    else AddNew(NoteStreams(client, pending[..|pending| - 1]), client.resolve(pending[|pending| - 1]))
  }

  function WithSweeps(seen: seq<StreamRef>, sweeps: seq<StreamRef>): seq<StreamRef> {
    if sweeps == [] then seen
    else AddNew(WithSweeps(seen, sweeps[..|sweeps| - 1]), sweeps[|sweeps| - 1])
  }

  function SyncStreams(client: Client, d: Desk): seq<StreamRef> {
    WithSweeps(NoteStreams(client, d.pending), d.sweeps)
  }

  // ---- Runs over a desk ----

  /** One delta listing asked for, and the answer. */
  datatype SweepMade = SweepMade(stream: StreamRef, answer: Answer<Listing>)

  /** `asked` are the lookups made, `sweeps` the delta listings, and `fetched` the messages the
      pipeline took, from notes and sweeps; `escaped` also covers a fetch that raised. */
  datatype GraphRun = GraphRun(state: State, desk: Desk, asked: seq<Asked>, sweeps: seq<SweepMade>,
                               fetched: seq<RawMessage>, steps: seq<Step>, escaped: bool)

  function CursorOf(cfg: Config, s: State, stream: StreamRef): Option<Cursor> {
    if SlotOf(cfg, stream) in s.cursors then Some(s.cursors[SlotOf(cfg, stream)]) else None
  }

  function RunGraphStream(cfg: Config, handle: Handler, client: Client, s: State, d: Desk,
                          stream: StreamRef): GraphRun {
    var notes := Looked(client, stream, d.rounds, d.pending, 0, d.order);
    var swept := SweptAfter(client, d, stream, CursorOf(cfg, s, stream), notes);
    var batch := notes.messages + swept.messages;
    var run := RunStream(cfg, handle, s, stream, batch, false);
    var asked := Lookups(client, stream, d.rounds, d.pending, 0);
    GraphRun(run.state, Drained(client, d, stream, notes, |run.steps|, run.escaped),
             if run.escaped then Made(asked, |run.steps|) else asked,
             if stream in d.sweeps && Begins(notes, |run.steps|, run.escaped)
             then [SweepMade(stream, client.delta(d.rounds, stream, Token(CursorOf(cfg, s, stream))))] else [],
             if |run.steps| <= |batch| then batch[..|run.steps|] else batch, run.steps, run.escaped || swept.raised)
  }

  /** How one stream is run.  Runs are defined for any way. */
  type StreamRunner = (State, Desk, StreamRef) -> GraphRun

  function Running(cfg: Config, handle: Handler, client: Client): StreamRunner {
    (s: State, d: Desk, stream: StreamRef) => RunGraphStream(cfg, handle, client, s, d, stream)
  }

  function RunGraphStreams(runner: StreamRunner, s: State, d: Desk, streams: seq<StreamRef>): GraphRun
    decreases |streams|
  {
    if streams == [] then GraphRun(s, d, [], [], [], [], false)
    else
      var first := runner(s, d, streams[0]);
      if first.escaped then first
      else
        var rest := RunGraphStreams(runner, first.state, first.desk, streams[1..]);
        Joined(first, rest)
  }

  /** One run, then another that follows it. */
  function Joined(first: GraphRun, rest: GraphRun): GraphRun {
    rest.(asked := first.asked + rest.asked, sweeps := first.sweeps + rest.sweeps,
          fetched := first.fetched + rest.fetched, steps := first.steps + rest.steps)
  }

  function RunGraph(cfg: Config, handle: Handler, client: Client, s: State, d: Desk): GraphRun {
    RunGraphStreams(Running(cfg, handle, client), s.(report := EMPTY_REPORT), d, SyncStreams(client, d))
  }

  /** The whole batch is these messages, then what is left. */
  predicate Yields(whole: Batch, messages: seq<RawMessage>, left: Batch) {
    whole.raised == left.raised && whole.messages == messages + left.messages
  }

  lemma ListingYields(stream: StreamRef, mails: seq<Answer<Mail>>, i: nat, link: string, order: nat,
                      messages: seq<RawMessage>, whole: Batch)
    requires i < |mails| && Yields(whole, messages, Listed(stream, mails[i..], link, order))
    ensures if mails[i].Raise? then whole == Batch(messages, true)
            else Yields(whole, messages + [ToRaw(stream, mails[i].value, Cursor(link, order + 1))],
                        Listed(stream, mails[i + 1..], link, order + 1))
  {
    assert mails[i..][0] == mails[i] && mails[i..][1..] == mails[i + 1..];
    if mails[i].Raise? {
      assert messages + [] == messages;
    } else {
      var rest := Listed(stream, mails[i + 1..], link, order + 1).messages;
      var mail := ToRaw(stream, mails[i].value, Cursor(link, order + 1));
      assert messages + ([mail] + rest) == messages + [mail] + rest;
    }
  }

  class GraphProvider {
    const client: Client
    var pending: seq<Note>
    var sweeps: seq<StreamRef>
    var order: nat
    var rounds: nat

    constructor (client: Client)
      ensures this.client == client && AsDesk() == Desk([], [], 0, 0)
    {
      this.client := client;
      pending, sweeps, order, rounds := [], [], 0, 0;
    }

    function AsDesk(): Desk
      reads this
    {
      Desk(pending, sweeps, order, rounds)
    }

    method Submit(note: Note)
      modifies this
      ensures AsDesk() == old(AsDesk()).(pending := old(pending) + [note])
    {
      pending := pending + [note];
    }

    method RequestSweep(stream: StreamRef)
      modifies this
      ensures AsDesk() == old(AsDesk()).(sweeps := AddNew(old(sweeps), stream))
    {
      if stream !in sweeps {
        sweeps := sweeps + [stream];
      }
    }

    method ListStreams() returns (seen: seq<StreamRef>)
      ensures seen == SyncStreams(client, AsDesk())
    {
      seen := [];
      for i := 0 to |pending|
        invariant seen == NoteStreams(client, pending[..i])
      {
        assert pending[..i + 1][..i] == pending[..i];
        var stream := client.resolve(pending[i]);
        if stream !in seen {
          seen := seen + [stream];
        }
      }
      assert pending[..|pending|] == pending && sweeps[..|sweeps|] == sweeps;
      for i := 0 to |sweeps|
        invariant seen == WithSweeps(NoteStreams(client, pending), sweeps[..i])
      {
        assert sweeps[..i + 1][..i] == sweeps[..i];
        if sweeps[i] !in seen {
          seen := seen + [sweeps[i]];
        }
      }
    }

    method LookUp(stream: StreamRef) returns (notes: Batch)
      ensures notes == Looked(client, stream, rounds, pending, 0, order)
    {
      var messages := [];
      var i := 0;
      while i < |pending|
        invariant i <= |pending|
        invariant var left := Looked(client, stream, rounds, pending, i, order + |messages|);
                  Looked(client, stream, rounds, pending, 0, order) == left.(messages := messages + left.messages)
      {
        if client.resolve(pending[i]) == stream {
          var answer := client.lookup(rounds, i, pending[i]);
          if answer.Raise? {
            return Batch(messages, true);
          }
          if answer.value.Some? {
            messages := messages + [ToRaw(stream, answer.value.value, NoteCursor(stream, order + |messages| + 1))];
          }
        }
        i := i + 1;
      }
      notes := Batch(messages, false);
    }

    method Sweep(stream: StreamRef, cursor: Option<Cursor>, behind: nat) returns (swept: Batch)
      ensures swept == Swept(client, stream, rounds, cursor, order + behind)
    {
      var listing := client.delta(rounds, stream, Token(cursor));
      if listing.Raise? {
        return Batch([], true);
      }
      var mails, link, messages := listing.value.mails, listing.value.link, [];
      ghost var whole := Listed(stream, mails, link, order + behind);
      assert mails[0..] == mails && [] + whole.messages == whole.messages;
      for i := 0 to |mails|
        invariant Yields(whole, messages, Listed(stream, mails[i..], link, order + behind + |messages|))
      {
        ListingYields(stream, mails, i, link, order + behind + |messages|, messages, whole);
        if mails[i].Raise? {
          return Batch(messages, true);
        }
        messages := messages + [ToRaw(stream, mails[i].value, Cursor(link, order + behind + |messages| + 1))];
      }
      swept := Batch(messages, false);
      assert messages + [] == messages;
    }

    method Remaining(stream: StreamRef) returns (remaining: seq<Note>)
      ensures remaining == Others(client, stream, pending)
    {
      remaining := [];
      assert pending[0..] == pending;
      for i := 0 to |pending|
        invariant Others(client, stream, pending) == remaining + Others(client, stream, pending[i..])
      {
        assert pending[i..][1..] == pending[i + 1..];
        if client.resolve(pending[i]) != stream {
          remaining := remaining + [pending[i]];
        }
      }
    }

    method Drain(stream: StreamRef, notes: Batch, consumed: nat, escaped: bool)
      modifies this
      ensures AsDesk() == Drained(client, old(AsDesk()), stream, notes, consumed, escaped)
    {
      if !notes.raised && !(escaped && consumed <= |notes.messages|) {
        var remaining := Remaining(stream);
        pending, sweeps := remaining, OtherSweeps(stream, sweeps);
      }
      order, rounds := order + consumed, rounds + 1;
    }
  }

  lemma {:induction false} StepsWithin(cfg: Config, handle: Handler, s: State, stream: StreamRef,
                                       batch: seq<RawMessage>, blocked: bool)
    ensures var run := RunStream(cfg, handle, s, stream, batch, blocked);
            |run.steps| <= |batch| && (!run.escaped ==> |run.steps| == |batch|)
    decreases |batch|
  {
    if batch != [] {
      var (next, step) := Advance(cfg, handle, s, stream, batch[0], blocked);
      StepsWithin(cfg, handle, next, stream, batch[1..], blocked || step.Pending?);
    }
  }

  /** One stream of a run: the pipeline consumes, the provider drains behind it. */
  method RunOneStream(pipeline: Pipeline, provider: GraphProvider, stream: StreamRef,
                      report: RunReport) returns (escaped: bool)
    requires pipeline.deadLetterStore.Valid()
    modifies pipeline.dedupeStore, pipeline.cursorStore, pipeline.deadLetterStore, pipeline.outside, report, provider
    ensures pipeline.deadLetterStore.Valid()
    ensures var run := RunGraphStream(pipeline.cfg, Handling(pipeline.cfg, pipeline.outside.world), provider.client,
                                      old(pipeline.Snap(report)), old(provider.AsDesk()), stream);
            pipeline.Snap(report) == run.state && provider.AsDesk() == run.desk && escaped == run.escaped
  {
    ghost var s, d := pipeline.Snap(report), provider.AsDesk();
    var cursor := pipeline.cursorStore.Get(pipeline.cfg.tenant, stream);
    assert cursor == CursorOf(pipeline.cfg, s, stream);
    var notes := provider.LookUp(stream);
    var swept := Batch([], notes.raised);
    if !notes.raised && stream in provider.sweeps {
      swept := provider.Sweep(stream, cursor, |notes.messages|);
    }
    assert swept == SweptAfter(provider.client, d, stream, cursor, notes);
    var stopped, consumed := pipeline.RunStream(stream, notes.messages + swept.messages, report);
    provider.Drain(stream, notes, consumed, stopped);
    escaped := stopped || swept.raised;
  }

  method RunOnce(pipeline: Pipeline, provider: GraphProvider) returns (report: RunReport, escaped: bool)
    requires pipeline.deadLetterStore.Valid()
    modifies pipeline.dedupeStore, pipeline.cursorStore, pipeline.deadLetterStore, pipeline.outside, provider
    ensures pipeline.deadLetterStore.Valid() && fresh(report)
    ensures var run := RunGraph(pipeline.cfg, Handling(pipeline.cfg, pipeline.outside.world), provider.client,
                                old(pipeline.StateWith(EMPTY_REPORT)), old(provider.AsDesk()));
            pipeline.Snap(report) == run.state && provider.AsDesk() == run.desk && escaped == run.escaped
  {
    report := new RunReport();
    ghost var runner := Running(pipeline.cfg, Handling(pipeline.cfg, pipeline.outside.world), provider.client);
    var streams := provider.ListStreams();
    ghost var whole := RunGraphStreams(runner, pipeline.Snap(report), provider.AsDesk(), streams);
    var i := 0;
    assert streams[0..] == streams;
    while i < |streams|
      invariant i <= |streams| && pipeline.deadLetterStore.Valid()
      invariant var left := RunGraphStreams(runner, pipeline.Snap(report), provider.AsDesk(), streams[i..]);
                whole.state == left.state && whole.desk == left.desk && whole.escaped == left.escaped
    {
      assert streams[i..][0] == streams[i] && streams[i..][1..] == streams[i + 1..];
      var stopped := RunOneStream(pipeline, provider, streams[i], report);
      if stopped {
        return report, true;
      }
      i := i + 1;
    }
    escaped := false;
  }

  // ---- The queue ----

  /** The streams of a run are exactly those with a note or a sweep waiting, each once. */
  ghost predicate ListsOnce(streams: seq<StreamRef>, members: set<StreamRef>) {
    && (forall stream :: stream in streams <==> stream in members)
    && (forall i, j | 0 <= i < j < |streams| :: streams[i] != streams[j])
  }

  function Waiting(client: Client, d: Desk): set<StreamRef> {
    (set note | note in d.pending :: client.resolve(note)) + (set stream | stream in d.sweeps)
  }

  lemma AddsOnce(streams: seq<StreamRef>, members: set<StreamRef>, stream: StreamRef)
    requires ListsOnce(streams, members)
    ensures ListsOnce(AddNew(streams, stream), members + {stream})
  {
  }

  lemma {:induction false} NoteStreamsListOnce(client: Client, pending: seq<Note>)
    ensures ListsOnce(NoteStreams(client, pending), set note | note in pending :: client.resolve(note))
  {
    if pending != [] {
      var front, last := pending[..|pending| - 1], pending[|pending| - 1];
      NoteStreamsListOnce(client, front);
      assert pending == front + [last];
      AddsOnce(NoteStreams(client, front), set note | note in front :: client.resolve(note), client.resolve(last));
      assert (set note | note in pending :: client.resolve(note))
          == (set note | note in front :: client.resolve(note)) + {client.resolve(last)};
    }
  }

  lemma {:induction false} SweepsListOnce(seen: seq<StreamRef>, members: set<StreamRef>, sweeps: seq<StreamRef>)
    requires ListsOnce(seen, members)
    ensures ListsOnce(WithSweeps(seen, sweeps), members + set stream | stream in sweeps)
  {
    if sweeps == [] {
      assert members + (set stream | stream in sweeps) == members;
    } else {
      var front, last := sweeps[..|sweeps| - 1], sweeps[|sweeps| - 1];
      SweepsListOnce(seen, members, front);
      assert sweeps == front + [last];
      AddsOnce(WithSweeps(seen, front), members + (set stream | stream in front), last);
      assert members + (set stream | stream in sweeps) == members + (set stream | stream in front) + {last};
    }
  }

  lemma StreamsAreThoseWaiting(client: Client, d: Desk)
    ensures ListsOnce(SyncStreams(client, d), Waiting(client, d))
  {
    NoteStreamsListOnce(client, d.pending);
    SweepsListOnce(NoteStreams(client, d.pending), set note | note in d.pending :: client.resolve(note), d.sweeps);
  }

  /** The notes whose stream is none of these. */
  function Undrained(client: Client, pending: seq<Note>, streams: seq<StreamRef>): seq<Note> {
    if pending == [] then []
    else (if client.resolve(pending[0]) in streams then [] else [pending[0]]) + Undrained(client, pending[1..], streams)
  }

  lemma {:induction false} OthersDrainOne(client: Client, pending: seq<Note>, stream: StreamRef,
                                          streams: seq<StreamRef>)
    ensures Undrained(client, Others(client, stream, pending), streams)
        == Undrained(client, pending, [stream] + streams)
  {
    if pending != [] {
      OthersDrainOne(client, pending[1..], stream, streams);
      var both, others := [stream] + streams, Others(client, stream, pending);
      assert both[0] == stream && forall x :: x in both <==> x == stream || x in streams;
      if client.resolve(pending[0]) == stream {
        assert others == Others(client, stream, pending[1..]);
        assert Undrained(client, pending, both) == Undrained(client, pending[1..], both);
      } else {
        assert others[0] == pending[0] && others[1..] == Others(client, stream, pending[1..]);
      }
    }
  }

  lemma {:induction false} NoneDrained(client: Client, pending: seq<Note>)
    ensures Undrained(client, pending, []) == pending
  {
    if pending != [] {
      NoneDrained(client, pending[1..]);
    }
  }

  lemma {:induction false} AllDrained(client: Client, pending: seq<Note>, streams: seq<StreamRef>)
    requires forall note | note in pending :: client.resolve(note) in streams
    ensures Undrained(client, pending, streams) == []
  {
    if pending != [] {
      AllDrained(client, pending[1..], streams);
    }
  }

  /** A stream of a run is drained or left alone, and surely drained if it ends normally. */
  lemma StreamDrains(cfg: Config, handle: Handler, client: Client, s: State, d: Desk, stream: StreamRef)
    ensures DrainsOne(client, d, RunGraphStream(cfg, handle, client, s, d, stream), stream)
  {
  }

  /** Every stream run is drained or left alone. */
  ghost predicate Drains(client: Client, runner: StreamRunner) {
    forall s, d, stream :: DrainsOne(client, d, runner(s, d, stream), stream)
  }

  ghost predicate DrainsOne(client: Client, d: Desk, run: GraphRun, stream: StreamRef) {
    && (run.desk.pending == d.pending || run.desk.pending == Others(client, stream, d.pending))
    && (!run.escaped ==> run.desk.pending == Others(client, stream, d.pending)
                         && run.desk.sweeps == OtherSweeps(stream, d.sweeps))
  }

  lemma RunningDrains(cfg: Config, handle: Handler, client: Client)
    ensures Drains(client, Running(cfg, handle, client))
  {
    forall s, d, stream ensures DrainsOne(client, d, Running(cfg, handle, client)(s, d, stream), stream) {
      StreamDrains(cfg, handle, client, s, d, stream);
    }
  }

  /** The first `k` streams were drained; all of them if the run ended normally. */
  ghost predicate DrainedUpTo(client: Client, before: seq<Note>, run: GraphRun, streams: seq<StreamRef>, k: nat) {
    k <= |streams| && run.desk.pending == Undrained(client, before, streams[..k]) && (!run.escaped ==> k == |streams|)
  }

  lemma DrainsCompose(client: Client, before: seq<Note>, run: GraphRun, streams: seq<StreamRef>, k: nat)
    requires streams != [] && DrainedUpTo(client, Others(client, streams[0], before), run, streams[1..], k)
    ensures DrainedUpTo(client, before, run, streams, k + 1)
  {
    OthersDrainOne(client, before, streams[0], streams[1..][..k]);
    assert [streams[0]] + streams[1..][..k] == streams[..k + 1];
  }

  lemma NothingDrained(client: Client, run: GraphRun, streams: seq<StreamRef>)
    requires run.escaped || streams == []
    ensures DrainedUpTo(client, run.desk.pending, run, streams, 0)
  {
    NoneDrained(client, run.desk.pending);
    assert streams[..0] == [];
  }

  /** However a run ends, its streams were drained in turn up to some point: the notes of
      those are gone from the queue, and every other note is still there, in order. */
  lemma {:induction false} RunDrainsAPrefix(client: Client, runner: StreamRunner, s: State, d: Desk,
                                            streams: seq<StreamRef>)
    requires Drains(client, runner)
    ensures exists k :: DrainedUpTo(client, d.pending, RunGraphStreams(runner, s, d, streams), streams, k)
    decreases |streams|
  {
    var run := RunGraphStreams(runner, s, d, streams);
    if streams == [] {
      NothingDrained(client, run, streams);
    } else {
      var first := runner(s, d, streams[0]);
      assert DrainsOne(client, d, first, streams[0]);
      if !first.escaped {
        RunDrainsAPrefix(client, runner, first.state, first.desk, streams[1..]);
        var rest := RunGraphStreams(runner, first.state, first.desk, streams[1..]);
        var k :| DrainedUpTo(client, first.desk.pending, rest, streams[1..], k);
        assert DrainedUpTo(client, first.desk.pending, run, streams[1..], k);
        DrainsCompose(client, d.pending, run, streams, k);
      } else if first.desk.pending == d.pending {
        NothingDrained(client, run, streams);
      } else {
        OneDrained(client, d.pending, run, streams);
      }
    }
  }

  lemma OneDrained(client: Client, before: seq<Note>, run: GraphRun, streams: seq<StreamRef>)
    requires streams != [] && run.escaped && run.desk.pending == Others(client, streams[0], before)
    ensures DrainedUpTo(client, before, run, streams, 1)
  {
    NothingDrained(client, run, streams[1..]);
    DrainsCompose(client, before, run, streams, 0);
  }

  lemma {:induction false} SweepsDrain(client: Client, runner: StreamRunner, s: State, d: Desk, streams: seq<StreamRef>)
    requires Drains(client, runner)
    requires !RunGraphStreams(runner, s, d, streams).escaped
    requires forall stream | stream in d.sweeps :: stream in streams
    requires Unrepeated(d.sweeps)
    ensures RunGraphStreams(runner, s, d, streams).desk.sweeps == []
    decreases |streams|
  {
    assert d.sweeps == [] || d.sweeps[0] in streams;
    if streams != [] {
      var first := runner(s, d, streams[0]);
      assert DrainsOne(client, d, first, streams[0]);
      OtherSweepsAre(streams[0], d.sweeps);
      SweepsDrain(client, runner, first.state, first.desk, streams[1..]);
    }
  }

  predicate Unrepeated(sweeps: seq<StreamRef>) {
    sweeps != [] ==> sweeps[0] !in sweeps[1..] && Unrepeated(sweeps[1..])
  }

  lemma {:induction false} OtherSweepsAre(stream: StreamRef, sweeps: seq<StreamRef>)
    requires Unrepeated(sweeps)
    ensures Unrepeated(OtherSweeps(stream, sweeps))
    ensures forall x :: x in OtherSweeps(stream, sweeps) <==> x in sweeps && x != stream
  {
    if sweeps != [] {
      OtherSweepsAre(stream, sweeps[1..]);
      assert sweeps == [sweeps[0]] + sweeps[1..];
    }
  }

  lemma {:induction false} RequestsStayUnrepeated(sweeps: seq<StreamRef>, stream: StreamRef)
    requires Unrepeated(sweeps)
    ensures Unrepeated(AddNew(sweeps, stream))
  {
    if sweeps != [] && stream !in sweeps {
      assert sweeps == [sweeps[0]] + sweeps[1..];
      RequestsStayUnrepeated(sweeps[1..], stream);
      assert (sweeps + [stream])[1..] == sweeps[1..] + [stream];
    }
  }

  /** A run that ends normally leaves neither notes nor sweeps waiting. */
  lemma NormalRunEmptiesTheDesk(cfg: Config, handle: Handler, client: Client, s: State, d: Desk)
    requires Unrepeated(d.sweeps)
    requires !RunGraph(cfg, handle, client, s, d).escaped
    ensures RunGraph(cfg, handle, client, s, d).desk.pending == []
      && RunGraph(cfg, handle, client, s, d).desk.sweeps == []
  {
    var streams, start := SyncStreams(client, d), s.(report := EMPTY_REPORT);
    StreamsAreThoseWaiting(client, d);
    forall note | note in d.pending ensures client.resolve(note) in streams {
      assert client.resolve(note) in Waiting(client, d);
    }
    forall stream | stream in d.sweeps ensures stream in streams {
      assert stream in Waiting(client, d);
    }
    RunningDrains(cfg, handle, client);
    RunDrainsAPrefix(client, Running(cfg, handle, client), start, d, streams);
    assert streams[..|streams|] == streams;
    AllDrained(client, d.pending, streams);
    SweepsDrain(client, Running(cfg, handle, client), start, d, streams);
  }

  // ---- Requested sweeps ----

  /** The whole listing was read, and each of its mails fetched. */
  ghost predicate Taken(made: SweepMade, fetched: seq<RawMessage>) {
    made.answer.Ok? && forall mail | mail in made.answer.value.mails ::
      mail.Ok? && exists msg :: msg in fetched && msg.stream == made.stream && msg.providerMessageId == mail.value.id
  }

  lemma TakenStays(made: SweepMade, fetched: seq<RawMessage>, more: seq<RawMessage>)
    requires Taken(made, fetched) && forall msg | msg in fetched :: msg in more
    ensures Taken(made, more)
  {
  }

  lemma {:induction false} ListedIsTaken(stream: StreamRef, mails: seq<Answer<Mail>>, link: string, order: nat)
    requires !Listed(stream, mails, link, order).raised
    ensures Taken(SweepMade(stream, Ok(Listing(mails, link))), Listed(stream, mails, link, order).messages)
  {
    if mails != [] {
      ListedIsTaken(stream, mails[1..], link, order + 1);
      var messages, rest := Listed(stream, mails, link, order).messages,
          Listed(stream, mails[1..], link, order + 1).messages;
      assert messages == [messages[0]] + rest && messages[0].providerMessageId == mails[0].value.id;
      assert mails == [mails[0]] + mails[1..];
      TakenStays(SweepMade(stream, Ok(Listing(mails[1..], link))), rest, messages);
    }
  }

  /** Taking a request off the queue takes its first occurrence and nothing else. */
  lemma {:induction false} FirstRequestGoes(stream: StreamRef, sweeps: seq<StreamRef>, k: nat)
    requires k < |sweeps| && sweeps[k] == stream && forall i | 0 <= i < k :: sweeps[i] != stream
    ensures OtherSweeps(stream, sweeps) == sweeps[..k] + sweeps[k + 1..]
  {
    if k > 0 {
      FirstRequestGoes(stream, sweeps[1..], k - 1);
      assert sweeps[..k] == [sweeps[0]] + sweeps[1..][..k - 1];
    }
  }

  lemma {:induction false} OtherSweepsSame(stream: StreamRef, sweeps: seq<StreamRef>)
    requires stream !in sweeps
    ensures OtherSweeps(stream, sweeps) == sweeps
  {
    if sweeps != [] {
      OtherSweepsSame(stream, sweeps[1..]);
    }
  }

  /** What running one stream does to its request: it stays as long as the listing is not asked
      for, and a listing asked for is taken whole unless the run ends by exception. */
  ghost predicate SweepsOne(d: Desk, run: GraphRun, stream: StreamRef) {
    && (run.sweeps == [] || (stream in d.sweeps && |run.sweeps| == 1 && run.sweeps[0].stream == stream))
    && run.desk.sweeps == (if run.sweeps == [] then d.sweeps else OtherSweeps(stream, d.sweeps))
    && forall k | 0 <= k < |run.sweeps| :: run.escaped || Taken(run.sweeps[k], run.fetched)
  }

  lemma SweptIsTaken(made: SweepMade, before: seq<RawMessage>, swept: Batch, order: nat)
    requires made.answer.Ok? && !swept.raised
    requires swept == Listed(made.stream, made.answer.value.mails, made.answer.value.link, order)
    ensures Taken(made, before + swept.messages)
  {
    ListedIsTaken(made.stream, made.answer.value.mails, made.answer.value.link, order);
    TakenStays(made, swept.messages, before + swept.messages);
  }

  lemma {:induction false} StreamSweeps(cfg: Config, handle: Handler, client: Client, s: State, d: Desk,
                                        stream: StreamRef)
    ensures SweepsOne(d, RunGraphStream(cfg, handle, client, s, d, stream), stream)
  {
    var run := RunGraphStream(cfg, handle, client, s, d, stream);
    var notes := Looked(client, stream, d.rounds, d.pending, 0, d.order);
    var swept := SweptAfter(client, d, stream, CursorOf(cfg, s, stream), notes);
    var batch := notes.messages + swept.messages;
    if stream !in d.sweeps {
      OtherSweepsSame(stream, d.sweeps);
    } else if run.sweeps != [] && !run.escaped {
      StepsWithin(cfg, handle, s, stream, batch, false);
      assert batch == run.fetched;
      SweptIsTaken(run.sweeps[0], notes.messages, swept, d.order + |notes.messages|);
    }
  }

  ghost predicate Sweeps(runner: StreamRunner) {
    forall s, d, stream :: SweepsOne(d, runner(s, d, stream), stream)
  }

  lemma RunningSweeps(cfg: Config, handle: Handler, client: Client)
    ensures Sweeps(Running(cfg, handle, client))
  {
    forall s, d, stream ensures SweepsOne(d, Running(cfg, handle, client)(s, d, stream), stream) {
      StreamSweeps(cfg, handle, client, s, d, stream);
    }
  }

  /** The listing of this stream was asked for. */
  ghost predicate IsMade(made: seq<SweepMade>, stream: StreamRef) {
    exists k :: 0 <= k < |made| && made[k].stream == stream
  }

  /** What becomes of the requests waiting at a desk. */
  ghost predicate RequestsEnd(before: seq<StreamRef>, run: GraphRun) {
    && Unrepeated(run.desk.sweeps)
    && (forall stream :: stream in run.desk.sweeps <==> stream in before && !IsMade(run.sweeps, stream))
    && (forall k | 0 <= k < |run.sweeps| :: run.sweeps[k].stream in before)
    && forall k | 0 <= k < |run.sweeps| :: Taken(run.sweeps[k], run.fetched) || (run.escaped && k == |run.sweeps| - 1)
  }

  lemma {:induction false} OneRequestEnds(d: Desk, run: GraphRun, stream: StreamRef)
    requires Unrepeated(d.sweeps) && SweepsOne(d, run, stream)
    ensures RequestsEnd(d.sweeps, run)
  {
    OtherSweepsAre(stream, d.sweeps);
    assert run.sweeps != [] ==> run.sweeps[0].stream == stream;
  }

  lemma {:induction false} RequestsCompose(before: seq<StreamRef>, first: GraphRun, rest: GraphRun)
    requires RequestsEnd(before, first) && !first.escaped && RequestsEnd(first.desk.sweeps, rest)
    ensures RequestsEnd(before, Joined(first, rest))
  {
    var run := Joined(first, rest);
    forall stream ensures IsMade(run.sweeps, stream) <==> IsMade(first.sweeps, stream) || IsMade(rest.sweeps, stream) {
      MadeJoins(first.sweeps, rest.sweeps, stream);
    }
    forall k | 0 <= k < |run.sweeps|
      ensures run.sweeps[k].stream in before
      ensures Taken(run.sweeps[k], run.fetched) || (run.escaped && k == |run.sweeps| - 1)
    {
      if k < |first.sweeps| {
        assert run.sweeps[k] == first.sweeps[k];
        TakenStays(first.sweeps[k], first.fetched, run.fetched);
      } else {
        var made := rest.sweeps[k - |first.sweeps|];
        assert run.sweeps[k] == made;
        if Taken(made, rest.fetched) {
          TakenStays(made, rest.fetched, run.fetched);
        }
      }
    }
  }

  lemma {:induction false} MadeJoins(first: seq<SweepMade>, rest: seq<SweepMade>, stream: StreamRef)
    ensures IsMade(first + rest, stream) <==> IsMade(first, stream) || IsMade(rest, stream)
  {
    if IsMade(first, stream) {
      var k :| 0 <= k < |first| && first[k].stream == stream;
      assert (first + rest)[k].stream == stream;
    }
    if IsMade(rest, stream) {
      var k :| 0 <= k < |rest| && rest[k].stream == stream;
      assert (first + rest)[|first| + k].stream == stream;
    }
  }

  lemma {:induction false} StreamsSweep(runner: StreamRunner, s: State, d: Desk, streams: seq<StreamRef>)
    requires Sweeps(runner) && Unrepeated(d.sweeps)
    ensures RequestsEnd(d.sweeps, RunGraphStreams(runner, s, d, streams))
    decreases |streams|
  {
    if streams != [] {
      var first := runner(s, d, streams[0]);
      assert SweepsOne(d, first, streams[0]);
      OneRequestEnds(d, first, streams[0]);
      if !first.escaped {
        StreamsSweep(runner, first.state, first.desk, streams[1..]);
        RequestsCompose(d.sweeps, first, RunGraphStreams(runner, first.state, first.desk, streams[1..]));
      }
    }
  }

  /** However a run ends, a request for a sweep is still waiting if and only if its listing was
      not asked for; every listing asked for was read and fetched whole, but for the last one
      of a run that ended by exception. */
  lemma RequestsSurviveExactly(cfg: Config, handle: Handler, client: Client, s: State, d: Desk)
    requires Unrepeated(d.sweeps)
    ensures RequestsEnd(d.sweeps, RunGraph(cfg, handle, client, s, d))
  {
    RunningSweeps(cfg, handle, client);
    StreamsSweep(Running(cfg, handle, client), s.(report := EMPTY_REPORT), d, SyncStreams(client, d));
  }
}
