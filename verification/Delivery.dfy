/** What one message, one stream and one run do to the pipeline's state, as functions of
    the state before and of everything the outside world answers. */
module Delivery {
  import opened Models
  import opened Observability
  import opened MemoryStores
  import opened FilterChain
  import Base64
  import Identity

  datatype Relevance = Relevance(score: Option<real>)

  /** What extraction and cleaning yield: the content to deliver and the attachments that
      were stripped from it. */
  datatype Extracted = Extracted(body: string, stripped: seq<Strip>)

  datatype CleanEmail = CleanEmail(
    content: Extracted,
    relevance: Option<Relevance>,
    matchedFilter: string,
    filtered: bool,
    filterReason: string)

  datatype EmailEvent = EmailEvent(tenant: string, orderingKey: string, idempotencyKey: string, email: CleanEmail)

  /** The stub event of a dead letter; it carries no idempotency key. */
  datatype DlqEvent = DlqEvent(tenant: string, orderingKey: string, providerMessageId: string, stream: string,
                               sizeBytes: int)

  /** What foreign code answers during one run of the work body. */
  datatype Work = Work(
    parse: Answer<()>,
    verdicts: seq<Answer<FilterDecision>>,
    classify: Answer<Relevance>,
    extract: Answer<Extracted>,
    emit: Answer<()>)

  /** What foreign code answers during one visit to a message.  The second work body is
      only asked for after a forced credential refresh; the clock is read once for a dead
      letter's record and once when the message is marked done. */
  datatype Visit = Visit(
    size: Answer<Option<int>>,
    first: Work,
    refresh: Answer<()>,
    second: Work,
    dlqEmit: Answer<()>,
    dlqPut: Answer<()>,
    recordedAt: Time,
    now: Time)

  /** The adversary: any answers at all, for the n-th visit and the message visited. */
  type World = (nat, RawMessage) -> Visit

  datatype Config = Config(
    tenant: string,
    maxMessageBytes: int,
    maxAttempts: int,
    claimLeaseSeconds: int,
    doneTtlSeconds: Time,
    dropFiltered: bool,
    classifies: bool,
    refreshes: bool,
    durable: bool)

  /** Everything a run touches.  `refused` are the events the emitter raised on; `stamps` says
      when each claim was last won, in the claim stores that keep that. */
  datatype State = State(
    claims: Claims,
    stamps: map<string, Time>,
    cursors: Cursors,
    dead: DeadLetters,
    emitted: seq<EmailEvent>,
    refused: seq<EmailEvent>,
    dlqEvents: seq<DlqEvent>,
    observed: seq<Trace>,
    visits: nat,
    report: Report)

  /** How handling one message ends: a terminal disposition, left for a retry, or an
      exception that leaves the pipeline. */
  datatype Step = Terminal(disposition: Disposition) | Pending | Escaped

  datatype WorkEnd = Completed(disposition: Disposition) | Failing(failure: Failure)

  function KeyOf(cfg: Config, msg: RawMessage): string {
    Identity.IdempotencyKey(cfg.tenant, msg.stream.mailbox, msg.providerMessageId)
  }

  function SlotOf(cfg: Config, stream: StreamRef): (string, string) {
    (cfg.tenant, stream.Key())
  }

  function Traced(s: State, trace: Trace): State {
    s.(report := s.report.WithTrace(trace), observed := s.observed + [trace])
  }

  function MarkedDone(cfg: Config, s: State, key: string, now: Time): State {
    s.(claims := Finished(s.claims, key, now + cfg.doneTtlSeconds))
  }

  /** The delivered email: a dropped verdict that was not suppressed tags it. */
  function Stamped(content: Extracted, relevance: Option<Relevance>, decision: FilterDecision): CleanEmail {
    CleanEmail(content, relevance, decision.filterName, decision.decision == Drop,
               if decision.decision == Drop then decision.reason else "")
  }

  function EventFor(cfg: Config, msg: RawMessage, email: CleanEmail): EmailEvent {
    EmailEvent(cfg.tenant, msg.stream.mailbox, KeyOf(cfg, msg), email)
  }

  function DoWork(cfg: Config, work: Work, now: Time, s: State, msg: RawMessage): (State, WorkEnd) {
    var key, verdict := KeyOf(cfg, msg), FilterChain.Run(work.verdicts);
    if work.parse.Raise? then (s, Failing(work.parse.failure))
    else if verdict.Raise? then (s, Failing(verdict.failure))
    else if verdict.value.decision == Drop && cfg.dropFiltered then
      (Traced(MarkedDone(cfg, s, key, now),
              Trace(key, Dropped, "filter", verdict.value.filterName, Filtered(verdict.value.reason))),
       Completed(Dropped))
    else
      var asks := cfg.classifies && verdict.value.decision == Uncertain;
      if asks && work.classify.Raise? then (s, Failing(work.classify.failure))
      else if work.extract.Raise? then (s, Failing(work.extract.failure))
      else Deliver(cfg, work, now, s, msg,
                   Stamped(work.extract.value, if asks then Some(work.classify.value) else None, verdict.value))
  }

  /** Strips are on record before the emit that may still fail. */
  function Deliver(cfg: Config, work: Work, now: Time, s: State, msg: RawMessage, email: CleanEmail): (State, WorkEnd) {
    var stripped := s.(report := s.report.WithStrips(email.content.stripped));
    if work.emit.Raise? then
      (stripped.(refused := s.refused + [EventFor(cfg, msg, email)]), Failing(work.emit.failure))
    else
      (Traced(MarkedDone(cfg, stripped.(emitted := s.emitted + [EventFor(cfg, msg, email)]), KeyOf(cfg, msg), now),
              Trace(KeyOf(cfg, msg), Emitted, "emit", "", Unstated)),
       Completed(Emitted))
  }

  function RecordFor(cfg: Config, msg: RawMessage, reason: Reason, attempts: nat, now: Time): DeadLetterRecord {
    DeadLetterRecord(
      KeyOf(cfg, msg), cfg.tenant, msg.provider, msg.providerMessageId, msg.stream.mailbox, msg.stream.folder,
      reason, attempts, msg.sizeBytes, msg.threadKey, msg.cursor.value, msg.cursor.order, msg.receivedAt, now,
      if msg.rawBytes != [] then Base64.Encode(msg.rawBytes) else "")
  }

  /** Sink first, durable record second, claim last: nothing irreversible precedes the record. */
  function DeadLettering(
    cfg: Config, v: Visit, s: State, msg: RawMessage, reason: Reason, attempts: nat): (State, Step)
  {
    var key := KeyOf(cfg, msg);
    if v.dlqEmit.Raise? then (s, Escaped)
    else
      var sunk := s.(dlqEvents := s.dlqEvents +
                     [DlqEvent(cfg.tenant, msg.stream.mailbox, msg.providerMessageId, msg.stream.Key(),
                               msg.sizeBytes)]);
      if cfg.durable && v.dlqPut.Raise? then (sunk, Escaped)
      else
        var kept := if cfg.durable then sunk.(dead := Put(s.dead, RecordFor(cfg, msg, reason, attempts, v.recordedAt)))
            else sunk;
        var done := MarkedDone(cfg, kept, key, v.now);
        (Traced(done.(report := done.report.WithDeadLetter(DeadLetter(key, reason))),
                Trace(key, DeadLettered, "dlq", "", reason)),
         Terminal(DeadLettered))
  }

  /** The provider's size, or the size on the message when the provider has none or zero. */
  function SizeOf(reported: Option<int>, msg: RawMessage): int {
    if reported.Some? && reported.value != 0 then reported.value else msg.sizeBytes
  }

  /** The part of a visit that follows a won claim. */
  function Attempt(cfg: Config, v: Visit, s: State, msg: RawMessage): (State, Step) {
    var attempts := Attempts(s.claims, KeyOf(cfg, msg));
    if v.size.Raise? then (s, Escaped)
    else
      var size := SizeOf(v.size.value, msg);
      if size <= 0 then DeadLettering(cfg, v, s, msg, SizeUnknown(size), attempts)
      else if cfg.maxMessageBytes < size then
        DeadLettering(cfg, v, s, msg, Oversized(size, cfg.maxMessageBytes), attempts)
      else
        var (worked, end) := DoWork(cfg, v.first, v.now, s, msg);
        match end
        case Completed(d) => (worked, Terminal(d))
        case Failing(Permanent) => DeadLettering(cfg, v, worked, msg, Failed(Permanent), attempts)
        case Failing(Auth) => RefreshAndRetryOnce(cfg, v, worked, msg)
        case Failing(Transient) => RetryOrDeadLetter(cfg, v, worked, msg, attempts)
  }

  function RefreshAndRetryOnce(cfg: Config, v: Visit, s: State, msg: RawMessage): (State, Step) {
    if cfg.refreshes && v.refresh.Raise? then (s, Escaped)
    else
      var (worked, end) := DoWork(cfg, v.second, v.now, s, msg);
      match end
      case Completed(d) => (worked, Terminal(d))
      case Failing(f) => DeadLettering(cfg, v, worked, msg, AuthRetryFailed(Auth, f), 1)
  }

  function RetryOrDeadLetter(cfg: Config, v: Visit, s: State, msg: RawMessage, attempts: nat): (State, Step) {
    if cfg.maxAttempts <= attempts then DeadLettering(cfg, v, s, msg, Failed(Transient), attempts)
    else (s.(claims := Released(s.claims, KeyOf(cfg, msg))), Pending)
  }

  function Process(cfg: Config, world: World, s: State, msg: RawMessage): (State, Step) {
    var key, v, visited := KeyOf(cfg, msg), world(s.visits, msg), s.(visits := s.visits + 1);
    if !Claimable(s.claims, key) then
      (Traced(visited, Trace(key, Duplicate, "dedupe", "", Unstated)), Terminal(Duplicate))
    else
      Attempt(cfg, v, visited.(claims := Attempted(Claimed(s.claims, key), key)), msg)
  }

  // ---- Streams and runs ----

  /** What is done with one fetched message.  Runs are defined for any handler. */
  type Handler = (State, RawMessage) -> (State, Step)

  function Handling(cfg: Config, world: World): Handler {
    (s: State, msg: RawMessage) => Process(cfg, world, s, msg)
  }

  datatype Run = Run(state: State, steps: seq<Step>, escaped: bool)

  function Counted(s: State): State {
    s.(report := s.report.(fetched := s.report.fetched + 1))
  }

  /** The low-water mark: the cursor moves only behind a terminal message with no pending
      message before it in the batch. */
  function Bookmarked(cfg: Config, s: State, stream: StreamRef, msg: RawMessage, step: Step, blocked: bool): State {
    if step.Terminal? && !blocked then s.(cursors := Committed(s.cursors, SlotOf(cfg, stream), msg.cursor)) else s
  }

  /** One turn of the stream loop: count, process, and move the cursor if that is safe. */
  function Advance(
    cfg: Config, handle: Handler, s: State, stream: StreamRef, msg: RawMessage, blocked: bool): (State, Step)
  {
    var (after, step) := handle(Counted(s), msg);
    (Bookmarked(cfg, after, stream, msg, step, blocked), step)
  }

  function RunStream(cfg: Config, handle: Handler, s: State, stream: StreamRef, batch: seq<RawMessage>,
                     blocked: bool): Run
    decreases |batch|
  {
    if batch == [] then Run(s, [], false)
    else
      var (next, step) := Advance(cfg, handle, s, stream, batch[0], blocked);
      if step.Escaped? then Run(next, [step], true)
      else
        var rest := RunStream(cfg, handle, next, stream, batch[1..], blocked || step.Pending?);
        Run(rest.state, [step] + rest.steps, rest.escaped)
  }

  lemma StreamUnrolls(cfg: Config, handle: Handler, s: State, stream: StreamRef, batch: seq<RawMessage>, i: nat,
                      blocked: bool)
    requires i < |batch|
    ensures var (next, step) := Advance(cfg, handle, s, stream, batch[i], blocked);
            var left := RunStream(cfg, handle, s, stream, batch[i..], blocked);
            if step.Escaped? then left == Run(next, [step], true)
            else
              var rest := RunStream(cfg, handle, next, stream, batch[i + 1..], blocked || step.Pending?);
              left == Run(rest.state, [step] + rest.steps, rest.escaped)
  {
    assert batch[i..][0] == batch[i] && batch[i..][1..] == batch[i + 1..];
  }

  lemma {:induction false} OneMessageStream(cfg: Config, handle: Handler, s: State, stream: StreamRef, msg: RawMessage)
    ensures var (next, step) := Advance(cfg, handle, s, stream, msg, false);
            RunStream(cfg, handle, s, stream, [msg], false) == Run(next, [step], step.Escaped?)
  {
    var (next, step) := Advance(cfg, handle, s, stream, msg, false);
    assert [msg][1..] == [];
    assert RunStream(cfg, handle, next, stream, [], step.Pending?) == Run(next, [], false);
    assert [step] + [] == [step];
  }

  /** A stream and everything that ever arrived on it, oldest first. */
  datatype Mailbox = Mailbox(stream: StreamRef, messages: seq<RawMessage>)

  /** Feeds the pipeline.  A resuming feed starts behind the stream's cursor; the other
      kind, used for replays, always yields everything it holds. */
  datatype Feed = Feed(boxes: seq<Mailbox>, resumes: bool)

  /** How many leading messages are at or behind `order`. */
  function Behind(messages: seq<RawMessage>, order: int): nat
    ensures Behind(messages, order) <= |messages|
  {
    if messages == [] || order < messages[0].cursor.order then 0
    else 1 + Behind(messages[1..], order)
  }

  function Fetch(feed: Feed, cfg: Config, box: Mailbox, cursors: Cursors): seq<RawMessage> {
    if feed.resumes then box.messages[Behind(box.messages, Position(cursors, SlotOf(cfg, box.stream)))..]
    else box.messages
  }

  function RunBoxes(cfg: Config, handle: Handler, feed: Feed, s: State, boxes: seq<Mailbox>): Run
    decreases |boxes|
  {
    if boxes == [] then Run(s, [], false)
    else
      var first := RunStream(cfg, handle, s, boxes[0].stream, Fetch(feed, cfg, boxes[0], s.cursors), false);
      if first.escaped then first
      else
        var rest := RunBoxes(cfg, handle, feed, first.state, boxes[1..]);
        Run(rest.state, first.steps + rest.steps, rest.escaped)
  }

  function RunFeed(cfg: Config, handle: Handler, feed: Feed, s: State): Run {
    RunBoxes(cfg, handle, feed, s.(report := EMPTY_REPORT), feed.boxes)
  }

  /** One call of `run_once`: a fresh report, then every stream of the feed in turn. */
  function RunOnce(cfg: Config, world: World, feed: Feed, s: State): Run {
    RunFeed(cfg, Handling(cfg, world), feed, s)
  }

  /** A feed of one message. */
  function OneMessage(msg: RawMessage, resumes: bool): Feed {
    Feed([Mailbox(msg.stream, [msg])], resumes)
  }

  /** A run over one message that is not behind its cursor is one turn. */
  lemma {:induction false} OneMessageFeed(cfg: Config, handle: Handler, s: State, msg: RawMessage, resumes: bool)
    requires resumes ==> Position(s.cursors, SlotOf(cfg, msg.stream)) < msg.cursor.order
    ensures var (next, step) := Advance(cfg, handle, s.(report := EMPTY_REPORT), msg.stream, msg, false);
            RunFeed(cfg, handle, OneMessage(msg, resumes), s) == Run(next, [step], step.Escaped?)
  {
    var feed, start := OneMessage(msg, resumes), s.(report := EMPTY_REPORT);
    var (next, step) := Advance(cfg, handle, start, msg.stream, msg, false);
    OneMessageStream(cfg, handle, start, msg.stream, msg);
    assert feed.boxes[1..] == [];
    assert Fetch(feed, cfg, feed.boxes[0], start.cursors) == [msg];
    assert RunBoxes(cfg, handle, feed, next, []) == Run(next, [], false);
    assert [step] + [] == [step];
  }
}
