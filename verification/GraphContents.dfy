/** What the notification-fed provider yields, told from the mail server's answers. */
module GraphContents {
  import opened Models
  import opened Observability
  import opened MemoryStores
  import opened Delivery
  import opened Graph
  import Providers

  /** The message is this mail, read from this stream. */
  predicate Carries(msg: RawMessage, stream: StreamRef, mail: Mail) {
    && msg.provider == "graph" && msg.providerMessageId == mail.id && msg.stream == stream
    && msg.rawBytes == mail.raw && msg.sizeBytes == |mail.raw|
    && msg.receivedAt == mail.receivedAt && msg.threadKey == mail.threadKey
  }

  /** The mails these lookups found, in order. */
  function FoundIn(asked: seq<Asked>): seq<Mail> {
    if asked == [] then []
    else
      (match asked[0].answer
       case Ok(Some(mail)) => [mail]
       case _ => []) + FoundIn(asked[1..])
  }

  /** The mails of a listing, up to the first that raises. */
  function Readable(mails: seq<Answer<Mail>>): seq<Mail> {
    if mails == [] || mails[0].Raise? then [] else [mails[0].value] + Readable(mails[1..])
  }

  /** The mails these listings hold, in order. */
  function SweptIn(made: seq<SweepMade>): seq<Mail> {
    if made == [] then []
    else
      (match made[0].answer
       case Ok(listing) => Readable(listing.mails)
       case Raise(_) => []) + SweptIn(made[1..])
  }

  /** The k-th message carries the k-th mail and the cursor that comes after `order`; those of
      notes are numbered, those of a listing carry its link. */
  ghost predicate AllCarried(messages: seq<RawMessage>, stream: StreamRef, mails: seq<Mail>, order: nat) {
    |messages| <= |mails| && forall k | 0 <= k < |messages| ::
      Carries(messages[k], stream, mails[k]) && messages[k].cursor.order == order + k + 1
  }

  lemma CarriedGrows(first: RawMessage, messages: seq<RawMessage>, stream: StreamRef, mail: Mail, mails: seq<Mail>,
                     order: nat)
    requires Carries(first, stream, mail) && first.cursor.order == order + 1
    requires AllCarried(messages, stream, mails, order + 1)
    ensures AllCarried([first] + messages, stream, [mail] + mails, order)
  {
    forall k | 0 <= k < |messages| + 1
      ensures Carries(([first] + messages)[k], stream, ([mail] + mails)[k])
        && ([first] + messages)[k].cursor.order == order + k + 1
    {
      if k > 0 {
        assert Carries(messages[k - 1], stream, mails[k - 1]);
      }
    }
  }

  lemma CarriedTake(messages: seq<RawMessage>, consumed: nat, stream: StreamRef, mails: seq<Mail>, order: nat)
    requires consumed <= |messages| && AllCarried(messages, stream, mails, order)
    ensures AllCarried(messages[..consumed], stream, mails, order)
  {
  }

  lemma CarriedJoin(first: seq<RawMessage>, second: seq<RawMessage>, stream: StreamRef, found: seq<Mail>,
                    swept: seq<Mail>, order: nat)
    requires AllCarried(first, stream, found, order) && |first| == |found|
    requires AllCarried(second, stream, swept, order + |first|)
    ensures AllCarried(first + second, stream, found + swept, order)
  {
    forall k | 0 <= k < |first + second|
      ensures Carries((first + second)[k], stream, (found + swept)[k])
        && (first + second)[k].cursor.order == order + k + 1
    {
      if k >= |first| {
        assert Carries(second[k - |first|], stream, swept[k - |first|]);
      }
    }
  }

  // ---- Notes ----

  lemma FoundInFirst(first: Asked, asked: seq<Asked>)
    ensures FoundIn([first] + asked)
      == (if first.answer.Ok? && first.answer.value.Some? then [first.answer.value.value] else []) + FoundIn(asked)
  {
    assert ([first] + asked)[1..] == asked;
  }

  ghost predicate AreFound(messages: seq<RawMessage>, stream: StreamRef, asked: seq<Asked>, order: nat) {
    AllCarried(messages, stream, FoundIn(asked), order) && |messages| == |FoundIn(asked)|
  }

  lemma NoneFound(stream: StreamRef, asked: seq<Asked>, order: nat)
    requires |asked| == 0 || (|asked| == 1 && asked[0].answer.Raise?)
    ensures AreFound([], stream, asked, order)
  {
    assert asked != [] ==> asked[1..] == [];
  }

  lemma MailFound(stream: StreamRef, ask: Asked, rest: seq<RawMessage>, more: seq<Asked>, order: nat)
    requires ask.answer.Ok? && ask.answer.value.Some?
    requires AreFound(rest, stream, more, order + 1)
    ensures AreFound([ToRaw(stream, ask.answer.value.value, NoteCursor(stream, order + 1))] + rest, stream,
                     [ask] + more, order)
  {
    var mail := ask.answer.value.value;
    FoundInFirst(ask, more);
    CarriedGrows(ToRaw(stream, mail, NoteCursor(stream, order + 1)), rest, stream, mail, FoundIn(more), order);
  }

  /** The messages of the notes are the mails found for them, one each and in order. */
  lemma {:induction false} LookedCarries(client: Client, stream: StreamRef, round: nat, pending: seq<Note>, i: nat,
                                         order: nat)
    requires i <= |pending|
    ensures AreFound(Looked(client, stream, round, pending, i, order).messages, stream,
                     Lookups(client, stream, round, pending, i), order)
    decreases |pending| - i
  {
    if i == |pending| {
      NoneFound(stream, [], order);
    } else {
      var answer := client.lookup(round, i, pending[i]);
      if client.resolve(pending[i]) != stream {
        LookedCarries(client, stream, round, pending, i + 1, order);
      } else if answer.Raise? {
        NoneFound(stream, [Asked(pending[i], answer)], order);
      } else {
        var ask, more := Asked(pending[i], answer), Lookups(client, stream, round, pending, i + 1);
        assert Lookups(client, stream, round, pending, i) == [ask] + more;
        if answer.value.None? {
          LookedCarries(client, stream, round, pending, i + 1, order);
          FoundInFirst(ask, more);
        } else {
          LookedCarries(client, stream, round, pending, i + 1, order + 1);
          MailFound(stream, ask, Looked(client, stream, round, pending, i + 1, order + 1).messages, more, order);
        }
      }
    }
  }

  /** The messages of a listing are its mails up to the first that raises. */
  lemma {:induction false} ListedCarries(stream: StreamRef, mails: seq<Answer<Mail>>, link: string, order: nat)
    ensures var batch := Listed(stream, mails, link, order);
            AllCarried(batch.messages, stream, Readable(mails), order) && |batch.messages| == |Readable(mails)|
    ensures forall msg | msg in Listed(stream, mails, link, order).messages :: msg.cursor.value == link
  {
    if mails != [] && mails[0].Ok? {
      ListedCarries(stream, mails[1..], link, order + 1);
      var messages, rest := Listed(stream, mails, link, order).messages,
          Listed(stream, mails[1..], link, order + 1).messages;
      assert messages == [messages[0]] + rest;
      CarriedGrows(messages[0], rest, stream, mails[0].value, Readable(mails[1..]), order);
    }
  }

  /** The cursor of a notified message names the stream and its own order. */
  predicate Numbered(msg: RawMessage, stream: StreamRef) {
    msg.cursor.order >= 0 && msg.cursor.value == stream.Key() + "#" + Providers.Decimal(msg.cursor.order)
  }

  lemma {:induction false} LookedNumbers(client: Client, stream: StreamRef, round: nat, pending: seq<Note>, i: nat,
                                         order: nat)
    requires i <= |pending|
    ensures forall msg | msg in Looked(client, stream, round, pending, i, order).messages :: Numbered(msg, stream)
    decreases |pending| - i
  {
    if i < |pending| {
      LookedNumbers(client, stream, round, pending, i + 1, order);
      LookedNumbers(client, stream, round, pending, i + 1, order + 1);
    }
  }

  lemma {:induction false} LookupsAreOfStream(client: Client, stream: StreamRef, round: nat, pending: seq<Note>, i: nat)
    requires i <= |pending|
    ensures forall ask | ask in Lookups(client, stream, round, pending, i) :: client.resolve(ask.note) == stream
    decreases |pending| - i
  {
    if i < |pending| {
      LookupsAreOfStream(client, stream, round, pending, i + 1);
    }
  }

  /** Once `consumed` mails were taken, the lookups made are those that found them. */
  lemma {:induction false} MadeFound(asked: seq<Asked>, consumed: nat)
    ensures var found, made := FoundIn(asked), FoundIn(Made(asked, consumed));
            if consumed <= |found| then made == found[..consumed] else made == found
    ensures forall ask | ask in Made(asked, consumed) :: ask in asked
  {
    if asked != [] && consumed > 0 {
      var found := asked[0].answer.Ok? && asked[0].answer.value.Some?;
      var left := if found then consumed - 1 else consumed;
      MadeFound(asked[1..], left);
      FoundInFirst(asked[0], Made(asked[1..], left));
    }
  }

  lemma {:induction false} MadeAll(asked: seq<Asked>, consumed: nat)
    requires consumed > |FoundIn(asked)|
    ensures Made(asked, consumed) == asked
  {
    if asked != [] {
      var found := asked[0].answer.Ok? && asked[0].answer.value.Some?;
      MadeAll(asked[1..], if found then consumed - 1 else consumed);
    }
  }

  // ---- Streams ----

  /** What one stream of a run asked, and the messages it fetched. */
  datatype Part = Part(stream: StreamRef, asked: seq<Asked>, sweeps: seq<SweepMade>, messages: seq<RawMessage>)

  /** The mails a part's answers hold: those of its notes, then those of its listing. */
  function MailsOf(part: Part): seq<Mail> {
    FoundIn(part.asked) + SweptIn(part.sweeps)
  }

  predicate CursorsSay(part: Part) {
    forall k | 0 <= k < |part.messages| ::
      if k < |FoundIn(part.asked)| then Numbered(part.messages[k], part.stream)
      else part.sweeps != [] && part.sweeps[0].answer.Ok?
           && part.messages[k].cursor.value == part.sweeps[0].answer.value.link
  }

  /** The part asked about its own stream only, and its messages are the mails it was answered,
      one each and in order; an exception may keep the last mails of a listing from coming. */
  ghost predicate PartSays(client: Client, part: Part, order: nat, escaped: bool) {
    && (forall ask | ask in part.asked :: client.resolve(ask.note) == part.stream)
    && |part.sweeps| <= 1 && (part.sweeps != [] ==> part.sweeps[0].stream == part.stream)
    && AllCarried(part.messages, part.stream, MailsOf(part), order)
    && (|part.messages| < |MailsOf(part)| ==> escaped && part.sweeps != [] && |FoundIn(part.asked)| < |part.messages|)
    && CursorsSay(part)
  }

  lemma ReadCursors(part: Part, noted: seq<RawMessage>, listed: seq<RawMessage>, consumed: nat)
    requires |noted| == |FoundIn(part.asked)| && part.sweeps != [] && part.sweeps[0].answer.Ok?
    requires forall msg | msg in noted :: Numbered(msg, part.stream)
    requires forall msg | msg in listed :: msg.cursor.value == part.sweeps[0].answer.value.link
    requires consumed <= |noted + listed| && part.messages == (noted + listed)[..consumed]
    ensures CursorsSay(part)
  {
    forall k | |noted| <= k < |part.messages|
      ensures part.messages[k].cursor.value == part.sweeps[0].answer.value.link
    {
      assert part.messages[k] == listed[k - |noted|];
    }
  }

  lemma {:induction false} ReadSays(client: Client, part: Part, notes: Batch, swept: Batch, order: nat, consumed: nat)
    requires forall ask | ask in part.asked :: client.resolve(ask.note) == part.stream
    requires AllCarried(notes.messages, part.stream, FoundIn(part.asked), order)
    requires |notes.messages| == |FoundIn(part.asked)| <= consumed
    requires consumed == |notes.messages| ==> swept.messages == []
    requires forall msg | msg in notes.messages :: Numbered(msg, part.stream)
    requires |part.sweeps| == 1 && part.sweeps[0].stream == part.stream && part.sweeps[0].answer.Ok?
    requires var listing := part.sweeps[0].answer.value;
      swept == Listed(part.stream, listing.mails, listing.link, order + |notes.messages|)
    requires consumed <= |notes.messages + swept.messages|
    requires part.messages == (notes.messages + swept.messages)[..consumed]
    ensures PartSays(client, part, order, consumed < |notes.messages + swept.messages|)
  {
    var listing, all := part.sweeps[0].answer.value, notes.messages + swept.messages;
    ListedCarries(part.stream, listing.mails, listing.link, order + |notes.messages|);
    assert AllCarried(part.messages, part.stream, MailsOf(part), order) by {
      CarriedJoin(notes.messages, swept.messages, part.stream, FoundIn(part.asked), Readable(listing.mails), order);
      SweptOne(part.sweeps);
      CarriedTake(all, consumed, part.stream, MailsOf(part), order);
    }
    ReadCursors(part, notes.messages, swept.messages, consumed);
    SweptOne(part.sweeps);
  }

  lemma SweptOne(made: seq<SweepMade>)
    requires |made| == 1 && made[0].answer.Ok?
    ensures SweptIn(made) == Readable(made[0].answer.value.mails)
  {
    assert made[1..] == [];
  }

  function PartOf(stream: StreamRef, run: GraphRun): Part {
    Part(stream, run.asked, run.sweeps, run.fetched)
  }

  lemma {:induction false} BareSays(client: Client, part: Part, messages: seq<RawMessage>, order: nat, escaped: bool)
    requires forall ask | ask in part.asked :: client.resolve(ask.note) == part.stream
    requires |part.sweeps| <= 1 && SweptIn(part.sweeps) == []
    requires part.sweeps != [] ==> part.sweeps[0].stream == part.stream
    requires AllCarried(part.messages, part.stream, FoundIn(part.asked), order)
    requires |part.messages| == |FoundIn(part.asked)|
    requires forall msg | msg in part.messages :: Numbered(msg, part.stream)
    ensures PartSays(client, part, order, escaped)
  {
    assert MailsOf(part) == FoundIn(part.asked);
  }

  /** What the notes of a stream are known to hold. */
  ghost predicate NotesSay(client: Client, stream: StreamRef, asked: seq<Asked>, notes: Batch, order: nat) {
    && (forall ask | ask in asked :: client.resolve(ask.note) == stream)
    && AllCarried(notes.messages, stream, FoundIn(asked), order) && |notes.messages| == |FoundIn(asked)|
    && forall msg | msg in notes.messages :: Numbered(msg, stream)
  }

  lemma LookedSays(client: Client, stream: StreamRef, d: Desk)
    ensures NotesSay(client, stream, Lookups(client, stream, d.rounds, d.pending, 0),
                     Looked(client, stream, d.rounds, d.pending, 0, d.order), d.order)
  {
    LookedCarries(client, stream, d.rounds, d.pending, 0, d.order);
    LookedNumbers(client, stream, d.rounds, d.pending, 0, d.order);
    LookupsAreOfStream(client, stream, d.rounds, d.pending, 0);
  }

  lemma {:induction false} OnlyNotesSay(client: Client, part: Part, asked: seq<Asked>, notes: Batch, consumed: nat,
                                        order: nat, stopped: bool, escaped: bool)
    requires NotesSay(client, part.stream, asked, notes, order)
    requires consumed <= |notes.messages| && (!stopped ==> consumed == |notes.messages|)
    requires part.asked == if stopped then Made(asked, consumed) else asked
    requires part.messages == notes.messages[..consumed]
    requires |part.sweeps| <= 1 && SweptIn(part.sweeps) == []
    requires part.sweeps != [] ==> part.sweeps[0].stream == part.stream
    ensures PartSays(client, part, order, escaped)
  {
    MadeFound(asked, consumed);
    BareSays(client, part, part.messages, order, escaped);
  }

  /** What one stream of a run fetches. */
  lemma {:induction false} StreamSays(cfg: Config, handle: Handler, client: Client, s: State, d: Desk,
                                      stream: StreamRef)
    ensures var run := RunGraphStream(cfg, handle, client, s, d, stream);
            PartSays(client, PartOf(stream, run), d.order, run.escaped)
            && run.desk.order == d.order + |run.fetched|
  {
    var run := RunGraphStream(cfg, handle, client, s, d, stream);
    var notes := Looked(client, stream, d.rounds, d.pending, 0, d.order);
    var swept := SweptAfter(client, d, stream, CursorOf(cfg, s, stream), notes);
    var batch, asked, part := notes.messages + swept.messages, Lookups(client, stream, d.rounds, d.pending, 0),
        PartOf(stream, run);
    StepsWithin(cfg, handle, s, stream, batch, false);
    LookedSays(client, stream, d);
    var stopped := RunStream(cfg, handle, s, stream, batch, false).escaped;
    if run.sweeps == [] || run.sweeps[0].answer.Raise? {
      OnlyNotesSay(client, part, asked, notes, |run.steps|, d.order, stopped, run.escaped);
    } else {
      if stopped {
        MadeFound(asked, |run.steps|);
        MadeAll(asked, |run.steps|);
      }
      ReadSays(client, part, notes, swept, d.order, |run.steps|);
    }
  }

  /** The committed cursor is a link the server can resume from. */
  predicate IsLink(cfg: Config, s: State, stream: StreamRef) {
    && SlotOf(cfg, stream) in s.cursors
    && var value := s.cursors[SlotOf(cfg, stream)].value; |value| >= 4 && value[..4] == ['h', 't', 't', 'p']
  }

  /** A listing resumes from the committed cursor if and only if that is a link; otherwise it
      starts over. */
  lemma {:induction false} ListingResumes(cfg: Config, handle: Handler, client: Client, s: State, d: Desk,
                                          stream: StreamRef)
    requires RunGraphStream(cfg, handle, client, s, d, stream).sweeps != []
    ensures var token := if IsLink(cfg, s, stream) then Some(s.cursors[SlotOf(cfg, stream)].value) else None;
            RunGraphStream(cfg, handle, client, s, d, stream).sweeps
            == [SweepMade(stream, client.delta(d.rounds, stream, token))]
  {
    assert "http" == ['h', 't', 't', 'p'];
  }

  // ---- Runs ----

  function AskedIn(parts: seq<Part>): seq<Asked> {
    if parts == [] then [] else parts[0].asked + AskedIn(parts[1..])
  }

  function ListingsIn(parts: seq<Part>): seq<SweepMade> {
    if parts == [] then [] else parts[0].sweeps + ListingsIn(parts[1..])
  }

  function MessagesIn(parts: seq<Part>): seq<RawMessage> {
    if parts == [] then [] else parts[0].messages + MessagesIn(parts[1..])
  }

  /** Part by part, stream by stream, cursor orders counting on from `order`; only the last part
      of a run that ended by exception may be cut short. */
  ghost predicate PartsSay(client: Client, parts: seq<Part>, streams: seq<StreamRef>, order: nat, escaped: bool) {
    parts != [] ==>
      && streams != [] && parts[0].stream == streams[0]
      && PartSays(client, parts[0], order, escaped && |parts| == 1)
      && PartsSay(client, parts[1..], streams[1..], order + |parts[0].messages|, escaped)
  }

  /** The run is these parts in a row, one for each stream up to where it ended. */
  ghost predicate RunSays(client: Client, parts: seq<Part>, run: GraphRun, streams: seq<StreamRef>, order: nat) {
    && run.asked == AskedIn(parts) && run.sweeps == ListingsIn(parts) && run.fetched == MessagesIn(parts)
    && (if run.escaped then 1 <= |parts| <= |streams| else |parts| == |streams|)
    && PartsSay(client, parts, streams, order, run.escaped)
  }

  ghost predicate StreamsSay(client: Client, runner: StreamRunner) {
    forall s, d, stream :: OneSays(client, d, runner(s, d, stream), stream)
  }

  ghost predicate OneSays(client: Client, d: Desk, run: GraphRun, stream: StreamRef) {
    PartSays(client, PartOf(stream, run), d.order, run.escaped) && run.desk.order == d.order + |run.fetched|
  }

  lemma RunningSays(cfg: Config, handle: Handler, client: Client)
    ensures StreamsSay(client, Running(cfg, handle, client))
  {
    forall s, d, stream ensures OneSays(client, d, Running(cfg, handle, client)(s, d, stream), stream) {
      StreamSays(cfg, handle, client, s, d, stream);
    }
  }

  lemma OnePart(client: Client, run: GraphRun, streams: seq<StreamRef>, order: nat)
    requires streams != [] && run.escaped && PartSays(client, PartOf(streams[0], run), order, true)
    ensures RunSays(client, [PartOf(streams[0], run)], run, streams, order)
  {
    assert [PartOf(streams[0], run)][1..] == [];
  }

  lemma PartsCompose(client: Client, first: GraphRun, rest: GraphRun, parts: seq<Part>, streams: seq<StreamRef>,
                     order: nat)
    requires streams != [] && PartSays(client, PartOf(streams[0], first), order, false)
    requires RunSays(client, parts, rest, streams[1..], order + |first.fetched|)
    ensures RunSays(client, [PartOf(streams[0], first)] + parts, Joined(first, rest), streams, order)
  {
    assert ([PartOf(streams[0], first)] + parts)[1..] == parts;
  }

  lemma {:induction false} StreamsAllSay(client: Client, runner: StreamRunner, s: State, d: Desk,
                                         streams: seq<StreamRef>)
    requires StreamsSay(client, runner)
    ensures exists parts :: RunSays(client, parts, RunGraphStreams(runner, s, d, streams), streams, d.order)
    decreases |streams|
  {
    if streams == [] {
      assert RunSays(client, [], RunGraphStreams(runner, s, d, []), [], d.order);
    } else {
      var first := runner(s, d, streams[0]);
      assert OneSays(client, d, first, streams[0]);
      if first.escaped {
        OnePart(client, first, streams, d.order);
        assert RunSays(client, [PartOf(streams[0], first)], RunGraphStreams(runner, s, d, streams), streams, d.order);
      } else {
        StreamsAllSay(client, runner, first.state, first.desk, streams[1..]);
        var rest := RunGraphStreams(runner, first.state, first.desk, streams[1..]);
        var parts :| RunSays(client, parts, rest, streams[1..], first.desk.order);
        PartsCompose(client, first, rest, parts, streams, d.order);
        var all := [PartOf(streams[0], first)] + parts;
        assert RunSays(client, all, RunGraphStreams(runner, s, d, streams), streams, d.order);
      }
    }
  }

  /** Every message a run fetches carries one mail the server answered with, identifier, bytes,
      thread and time unchanged, and every mail answered is fetched once and in order, but for
      those a listing still held when the run ended by exception. */
  lemma EveryFetchSays(cfg: Config, handle: Handler, client: Client, s: State, d: Desk)
    ensures exists parts :: RunSays(client, parts, RunGraph(cfg, handle, client, s, d), SyncStreams(client, d), d.order)
  {
    RunningSays(cfg, handle, client);
    var runner, start, streams := Running(cfg, handle, client), s.(report := EMPTY_REPORT), SyncStreams(client, d);
    StreamsAllSay(client, runner, start, d, streams);
    var parts :| RunSays(client, parts, RunGraphStreams(runner, start, d, streams), streams, d.order);
    assert RunSays(client, parts, RunGraph(cfg, handle, client, s, d), streams, d.order);
  }

  // ---- The order of streams ----

  /** The streams of the waiting notes, then the requested sweeps. */
  function Queued(client: Client, d: Desk): seq<StreamRef> {
    seq(|d.pending|, i requires 0 <= i < |d.pending| => client.resolve(d.pending[i])) + d.sweeps
  }

  /** Where a stream first stands in the queue. */
  function First(queue: seq<StreamRef>, stream: StreamRef): (k: nat)
    ensures k <= |queue| && (k < |queue| ==> queue[k] == stream) && forall i | 0 <= i < k :: queue[i] != stream
  {
    if queue == [] || queue[0] == stream then 0
    else
      var k := First(queue[1..], stream);
      assert forall i | 1 <= i < k + 1 :: queue[i] == queue[1..][i - 1];
      k + 1
  }

  ghost predicate InTurn(queue: seq<StreamRef>, seen: seq<StreamRef>) {
    && (forall stream :: stream in seen <==> stream in queue)
    && forall i, j | 0 <= i < j < |seen| :: First(queue, seen[i]) < First(queue, seen[j])
  }

  lemma FirstStays(queue: seq<StreamRef>, last: StreamRef, stream: StreamRef)
    requires stream in queue || stream == last
    ensures First(queue + [last], stream) == if stream in queue then First(queue, stream) else |queue|
  {
    var more, k := queue + [last], First(queue + [last], stream);
    assert forall i | 0 <= i < |queue| :: more[i] == queue[i];
    assert more[|queue|] == last;
    if stream in queue {
      assert more[First(queue, stream)] == stream;
    } else if k < |queue| {
      assert false;
    }
  }

  lemma OneMoreInTurn(queue: seq<StreamRef>, seen: seq<StreamRef>, stream: StreamRef)
    requires InTurn(queue, seen)
    ensures InTurn(queue + [stream], AddNew(seen, stream))
  {
    forall x | x in queue || x == stream
      ensures First(queue + [stream], x) == if x in queue then First(queue, x) else |queue|
    {
      FirstStays(queue, stream, x);
    }
    forall x | x in queue ensures First(queue, x) < |queue| {
      assert x in queue;
    }
  }

  lemma {:induction false} NotesInTurn(client: Client, pending: seq<Note>)
    ensures InTurn(Queued(client, Desk(pending, [], 0, 0)), NoteStreams(client, pending))
  {
    if pending != [] {
      var less, last := pending[..|pending| - 1], pending[|pending| - 1];
      NotesInTurn(client, less);
      var queue := Queued(client, Desk(less, [], 0, 0));
      OneMoreInTurn(queue, NoteStreams(client, less), client.resolve(last));
      assert Queued(client, Desk(pending, [], 0, 0)) == queue + [client.resolve(last)];
    }
  }

  lemma {:induction false} SweepsInTurn(queue: seq<StreamRef>, seen: seq<StreamRef>, sweeps: seq<StreamRef>)
    requires InTurn(queue, seen)
    ensures InTurn(queue + sweeps, WithSweeps(seen, sweeps))
  {
    if sweeps == [] {
      assert queue + sweeps == queue;
    } else {
      var less, last := sweeps[..|sweeps| - 1], sweeps[|sweeps| - 1];
      SweepsInTurn(queue, seen, less);
      OneMoreInTurn(queue + less, WithSweeps(seen, less), last);
      assert queue + sweeps == queue + less + [last];
    }
  }

  /** The streams of a run come in the order in which they first stand in the queue. */
  lemma StreamsComeInTurn(client: Client, d: Desk)
    ensures InTurn(Queued(client, d), SyncStreams(client, d))
  {
    NotesInTurn(client, d.pending);
    SweepsInTurn(Queued(client, Desk(d.pending, [], 0, 0)), NoteStreams(client, d.pending), d.sweeps);
    assert Queued(client, d) == Queued(client, Desk(d.pending, [], 0, 0)) + d.sweeps;
  }
}
