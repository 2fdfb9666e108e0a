/** The in-memory provider: a fixed seed of messages, served in order behind a cursor. */
module Providers {
  import opened Models
  import opened MemoryStores
  import opened Delivery
  import opened Observability
  import opened LowWater
  import opened Pipelines

  datatype SeedEmail = SeedEmail(providerMessageId: string, raw: Bytes, receivedAt: Option<Time>)

  /** 9 June 2026, midnight UTC. */
  const UNDATED: Time := 1780963200.0

  function Decimal(n: nat): string {
    if n < 10 then [('0' as int + n) as char] else Decimal(n / 10) + Decimal(n % 10)
  }

  function SeedMessage(stream: StreamRef, item: SeedEmail, index: nat): RawMessage {
    RawMessage("memory", item.providerMessageId, stream, |item.raw|,
               if item.receivedAt.Some? then item.receivedAt.value else UNDATED,
               Cursor(stream.Key() + "#" + Decimal(index), index), item.raw, "")
  }

  /** The whole mailbox, its first message numbered `index`. */
  function Seeded(stream: StreamRef, items: seq<SeedEmail>, index: nat): (messages: seq<RawMessage>)
    ensures |messages| == |items|
  {
    if items == [] then [] else [SeedMessage(stream, items[0], index)] + Seeded(stream, items[1..], index + 1)
  }

  lemma {:induction false} SeededAt(stream: StreamRef, items: seq<SeedEmail>, index: nat)
    ensures forall i | 0 <= i < |items| :: Seeded(stream, items, index)[i] == SeedMessage(stream, items[i], index + i)
  {
    if items != [] {
      SeededAt(stream, items[1..], index + 1);
    }
  }

  /** The number some decimal digits stand for. */
  function Number(digits: string): int {
    if digits == "" then 0
    else Number(digits[..|digits| - 1]) * 10 + (digits[|digits| - 1] as int - '0' as int)
  }

  predicate IsNumeral(digits: string, n: int) {
    digits != "" && Number(digits) == n && forall i | 0 <= i < |digits| :: '0' <= digits[i] <= '9'
  }

  lemma {:induction false} DecimalReadsBack(n: nat)
    ensures IsNumeral(Decimal(n), n)
  {
    if n >= 10 {
      DecimalReadsBack(n / 10);
      assert Decimal(n)[..|Decimal(n)| - 1] == Decimal(n / 10);
    }
  }

  /** The i-th message of a mailbox is the i-th mail of its seed, numbered from one. */
  lemma SeededMessageSays(stream: StreamRef, items: seq<SeedEmail>, i: nat)
    requires i < |items|
    ensures var msg := Seeded(stream, items, 1)[i];
            && msg.provider == "memory" && msg.providerMessageId == items[i].providerMessageId && msg.stream == stream
            && msg.rawBytes == items[i].raw && msg.sizeBytes == |items[i].raw| && msg.threadKey == ""
            && (items[i].receivedAt == Some(msg.receivedAt)
                || (items[i].receivedAt == None && msg.receivedAt == UNDATED))
            && msg.cursor.order == i + 1
            && exists digits :: IsNumeral(digits, i + 1) && msg.cursor.value == stream.Key() + "#" + digits
  {
    SeededAt(stream, items, 1);
    DecimalReadsBack(i + 1);
  }

  /** As many seeded messages lie behind a cursor as its order says. */
  lemma BehindSeeded(stream: StreamRef, items: seq<SeedEmail>, at: int)
    ensures Behind(Seeded(stream, items, 1), at) == if at < 0 then 0 else if |items| < at then |items| else at
  {
    var all := Seeded(stream, items, 1);
    SeededAt(stream, items, 1);
    BehindIsAPrefix(all, at);
    var behind := Behind(all, at);
    assert behind > 0 ==> all[behind - 1].cursor.order <= at;
    assert behind < |items| ==> at < all[behind].cursor.order;
  }

  /** The messages from `behind` up to `i`. */
  function Served(all: seq<RawMessage>, behind: nat, i: nat): seq<RawMessage>
    requires i <= |all|
  {
    if i <= behind then [] else all[behind..i]
  }

  lemma ServedOneMore(all: seq<RawMessage>, behind: nat, i: nat)
    requires i < |all|
    ensures Served(all, behind, i + 1) == Served(all, behind, i) + if behind <= i then [all[i]] else []
  {
  }

  class MemoryProvider {
    /** The seed's streams in insertion order. */
    const streams: seq<StreamRef>
    const seed: map<StreamRef, seq<SeedEmail>>
    var connected: bool

    constructor (streams: seq<StreamRef>, seed: map<StreamRef, seq<SeedEmail>>)
      ensures this.streams == streams && this.seed == seed && !connected
    {
      this.streams, this.seed, connected := streams, seed, false;
    }

    function Items(stream: StreamRef): seq<SeedEmail> {
      if stream in seed then seed[stream] else []
    }

    function Box(stream: StreamRef): Mailbox {
      Mailbox(stream, Seeded(stream, Items(stream), 1))
    }

    /** What a run over this provider is fed. */
    function AsFeed(): Feed {
      FeedOf(seq(|streams|, i requires 0 <= i < |streams| => SeedBox(streams[i], Items(streams[i]))))
    }

    method Connect()
      modifies this
      ensures connected
    {
      connected := true;
    }

    /** Exactly the messages behind the cursor, in order. */
    method Fetch(stream: StreamRef, cursor: Option<Cursor>) returns (messages: seq<RawMessage>)
      ensures var at := if cursor.Some? then cursor.value.order else 0;
              messages == Box(stream).messages[Behind(Box(stream).messages, at)..]
    {
      var start := if cursor.Some? then cursor.value.order else 0;
      var items := Items(stream);
      ghost var all := Box(stream).messages;
      ghost var behind := Behind(all, start);
      BehindSeeded(stream, items, start);
      messages := [];
      for i := 0 to |items|
        invariant messages == Served(all, behind, i)
      {
        var index := i + 1;
        SeededAt(stream, items, 1);
        ServedOneMore(all, behind, i);
        if start < index {
          messages := messages + [SeedMessage(stream, items[i], index)];
        }
      }
    }
  }

  // ---- Seeds ----

  /** One stream of a seed with its messages. */
  datatype SeedBox = SeedBox(stream: StreamRef, items: seq<SeedEmail>)

  function FeedOf(seed: seq<SeedBox>): Feed {
    Feed(seq(|seed|, i requires 0 <= i < |seed| => Mailbox(seed[i].stream, Seeded(seed[i].stream, seed[i].items, 1))),
         true)
  }

  /** The whole run is what these boxes make of the state. */
  ghost predicate Continues(cfg: Config, handle: Handler, feed: Feed, whole: Run, s: State, i: nat)
    requires i <= |feed.boxes|
  {
    var left := RunBoxes(cfg, handle, feed, s, feed.boxes[i..]);
    whole.state == left.state && whole.escaped == left.escaped
  }

  lemma BoxContinues(cfg: Config, handle: Handler, feed: Feed, whole: Run, s: State, i: nat)
    requires i < |feed.boxes| && Continues(cfg, handle, feed, whole, s, i)
    ensures var first := RunStream(cfg, handle, s, feed.boxes[i].stream, Fetch(feed, cfg, feed.boxes[i], s.cursors),
                                   false);
            if first.escaped then whole.state == first.state && whole.escaped
            else Continues(cfg, handle, feed, whole, first.state, i + 1)
  {
    assert feed.boxes[i..][0] == feed.boxes[i] && feed.boxes[i..][1..] == feed.boxes[i + 1..];
  }

  method RunOneStream(pipeline: Pipeline, provider: MemoryProvider, stream: StreamRef, report: RunReport)
    returns (escaped: bool)
    requires pipeline.deadLetterStore.Valid()
    modifies pipeline.dedupeStore, pipeline.cursorStore, pipeline.deadLetterStore, pipeline.outside, report
    ensures pipeline.deadLetterStore.Valid()
    ensures var batch := Fetch(provider.AsFeed(), pipeline.cfg, provider.Box(stream),
                               old(pipeline.cursorStore.cursors));
            var run := RunStream(pipeline.cfg, Handling(pipeline.cfg, pipeline.outside.world),
                                 old(pipeline.Snap(report)), stream, batch, false);
            pipeline.Snap(report) == run.state && escaped == run.escaped
  {
    var cursor := pipeline.cursorStore.Get(pipeline.cfg.tenant, stream);
    var batch := provider.Fetch(stream, cursor);
    assert batch == Fetch(provider.AsFeed(), pipeline.cfg, provider.Box(stream), pipeline.cursorStore.cursors);
    var stopped, _ := pipeline.RunStream(stream, batch, report);
    escaped := stopped;
  }

  /** A run over the provider: connect, then every stream of the seed in turn, fetched from
      behind its cursor. */
  method RunOnce(pipeline: Pipeline, provider: MemoryProvider) returns (report: RunReport, escaped: bool)
    requires pipeline.deadLetterStore.Valid()
    modifies pipeline.dedupeStore, pipeline.cursorStore, pipeline.deadLetterStore, pipeline.outside, provider
    ensures pipeline.deadLetterStore.Valid() && fresh(report) && provider.connected
    ensures var run := Delivery.RunOnce(pipeline.cfg, pipeline.outside.world, provider.AsFeed(),
                                        old(pipeline.StateWith(EMPTY_REPORT)));
            pipeline.Snap(report) == run.state && escaped == run.escaped
  {
    provider.Connect();
    report := new RunReport();
    ghost var feed, handle := provider.AsFeed(), Handling(pipeline.cfg, pipeline.outside.world);
    ghost var whole := RunBoxes(pipeline.cfg, handle, feed, pipeline.Snap(report), feed.boxes);
    var i := 0;
    assert feed.boxes[0..] == feed.boxes;
    while i < |provider.streams|
      invariant i <= |provider.streams| == |feed.boxes| && pipeline.deadLetterStore.Valid() && provider.connected
      invariant Continues(pipeline.cfg, handle, feed, whole, pipeline.Snap(report), i)
    {
      assert feed.boxes[i] == provider.Box(provider.streams[i]);
      BoxContinues(pipeline.cfg, handle, feed, whole, pipeline.Snap(report), i);
      var stopped := RunOneStream(pipeline, provider, provider.streams[i], report);
      if stopped {
        return report, true;
      }
      i := i + 1;
    }
    escaped := false;
  }
}
