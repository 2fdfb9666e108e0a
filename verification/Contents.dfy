/** What the pipeline sends, traces and records, told from the answers it was given. */
module Contents {
  import opened Models
  import opened Observability
  import opened MemoryStores
  import opened Delivery
  import opened Visits
  import opened FilterChain
  import opened Escapes
  import Base64

  // ---- What is to be said ----

  /** The k-th filter is the first to keep or to drop, and none before it raises. */
  predicate FirstToDecide(verdicts: seq<Answer<FilterDecision>>, k: int) {
    0 <= k < |verdicts| && verdicts[k].Ok? && verdicts[k].value.decision in {Decision.Keep, Decision.Drop}
    && forall j | 0 <= j < k :: Silent(verdicts[j])
  }

  predicate NoneDecides(verdicts: seq<Answer<FilterDecision>>) {
    forall j | 0 <= j < |verdicts| :: Silent(verdicts[j])
  }

  /** The key of a message, its three parts in order with bars between them. */
  predicate IsKeyOf(cfg: Config, msg: RawMessage, key: string) {
    key == cfg.tenant + "|" + msg.stream.mailbox + "|" + msg.providerMessageId
  }

  /** The event carries what this work extracted, the relevance where the classifier was
      asked, and the first deciding filter's tag. */
  ghost predicate EventSays(cfg: Config, work: Work, msg: RawMessage, e: EmailEvent) {
    && e.tenant == cfg.tenant && e.orderingKey == msg.stream.mailbox && IsKeyOf(cfg, msg, e.idempotencyKey)
    && work.extract == Ok(e.email.content)
    && (if cfg.classifies && NoneDecides(work.verdicts)
        then e.email.relevance.Some? && work.classify == Ok(e.email.relevance.value) else e.email.relevance == None)
    && (if NoneDecides(work.verdicts)
        then !e.email.filtered && e.email.matchedFilter == "" && e.email.filterReason == ""
        else exists k :: FirstToDecide(work.verdicts, k) && TaggedBy(e.email, work.verdicts[k].value))
    && (e.email.filtered ==> !cfg.dropFiltered)
  }

  predicate TaggedBy(email: CleanEmail, decision: FilterDecision) {
    && email.matchedFilter == decision.filterName
    && (email.filtered <==> decision.decision == Decision.Drop)
    && email.filterReason == if decision.decision == Decision.Drop then decision.reason else ""
  }

  /** The message is neither empty nor over the limit. */
  ghost predicate InBounds(cfg: Config, v: Visit, msg: RawMessage) {
    exists size :: CountsAs(v, msg, size) && 0 < size <= cfg.maxMessageBytes
  }

  /** The event of a visit is its first work body's, or its second's after the first met an
      authentication failure. */
  ghost predicate EmittedBy(cfg: Config, v: Visit, msg: RawMessage, e: EmailEvent) {
    InBounds(cfg, v, msg) &&
    match FirstFailure(Calls(cfg, v.first))
    case None => EventSays(cfg, v.first, msg, e)
    case Some(failure) => failure == Auth && EventSays(cfg, v.second, msg, e)
  }

  /** A filter dropped the message before any other decided, and dropping is configured. */
  ghost predicate DropSays(cfg: Config, work: Work, matchedFilter: string, reason: Reason) {
    cfg.dropFiltered && exists k ::
      FirstToDecide(work.verdicts, k) && work.verdicts[k].value.decision == Decision.Drop
      && matchedFilter == work.verdicts[k].value.filterName && reason == Filtered(work.verdicts[k].value.reason)
  }

  /** The size that counts: the provider's, unless it has none or zero. */
  predicate CountsAs(v: Visit, msg: RawMessage, size: int) {
    v.size.Ok? &&
    match v.size.value
    case None => size == msg.sizeBytes
    case Some(reported) => if reported == 0 then size == msg.sizeBytes else size == reported
  }

  /** Why this visit dead-letters its message. */
  ghost predicate ReasonSays(cfg: Config, v: Visit, msg: RawMessage, reason: Reason) {
    exists size :: CountsAs(v, msg, size) &&
      if size <= 0 then reason == SizeUnknown(size)
      else if size > cfg.maxMessageBytes then reason == Oversized(size, cfg.maxMessageBytes)
      else
        match FirstFailure(Calls(cfg, v.first))
        case None => false
        case Some(Auth) =>
          FirstFailure(Calls(cfg, v.second)).Some?
          && reason == AuthRetryFailed(Auth, FirstFailure(Calls(cfg, v.second)).value)
        case Some(failure) => reason == Failed(failure)
  }

  /** The one trace of a visit that ends so. */
  ghost predicate TraceSays(cfg: Config, v: Visit, msg: RawMessage, trace: Trace) {
    IsKeyOf(cfg, msg, trace.key) &&
    match trace.disposition
    case Emitted => trace.stage == "emit" && trace.matchedFilter == "" && trace.reason == Unstated
    case Duplicate => trace.stage == "dedupe" && trace.matchedFilter == "" && trace.reason == Unstated
    case DeadLettered => trace.stage == "dlq" && trace.matchedFilter == "" && ReasonSays(cfg, v, msg, trace.reason)
    case Dropped =>
      trace.stage == "filter" && InBounds(cfg, v, msg) &&
      match FirstFailure(Calls(cfg, v.first))
      case None => DropSays(cfg, v.first, trace.matchedFilter, trace.reason)
      case Some(failure) => failure == Auth && DropSays(cfg, v.second, trace.matchedFilter, trace.reason)
  }

  /** The attempt a record carries: after a refresh it is one, whatever the count. */
  function AttemptTold(cfg: Config, v: Visit, msg: RawMessage, count: nat): nat {
    if Fits(cfg, v, msg) && FirstFailure(Calls(cfg, v.first)) == Some(Auth) then 1 else count
  }

  /** A durable record from which the message can be rebuilt, with the reason, the attempt and
      the time of the visit that made it. */
  ghost predicate RecordSays(cfg: Config, v: Visit, msg: RawMessage, count: nat, r: DeadLetterRecord) {
    && IsKeyOf(cfg, msg, r.recordId) && r.tenant == cfg.tenant && r.provider == msg.provider
    && r.providerMessageId == msg.providerMessageId && r.mailbox == msg.stream.mailbox && r.folder == msg.stream.folder
    && ReasonSays(cfg, v, msg, r.reason) && r.attempts == AttemptTold(cfg, v, msg, count)
    && r.sizeBytes == msg.sizeBytes && r.threadKey == msg.threadKey
    && r.cursorValue == msg.cursor.value && r.cursorOrder == msg.cursor.order
    && r.receivedAt == msg.receivedAt && r.deadLetteredAt == v.recordedAt
    && Base64.WellFormed(r.rawB64) && Base64.Decode(r.rawB64) == msg.rawBytes
  }

  predicate SunkSays(cfg: Config, msg: RawMessage, e: DlqEvent) {
    e.tenant == cfg.tenant && e.orderingKey == msg.stream.mailbox && e.providerMessageId == msg.providerMessageId
    && e.stream == msg.stream.Key() && e.sizeBytes == msg.sizeBytes
  }

  // ---- The work body ----

  /** The chain's answer, told from the filters'. */
  lemma {:induction false} ChainSays(verdicts: seq<Answer<FilterDecision>>)
    requires FilterChain.Run(verdicts).Ok?
    ensures var ruling := FilterChain.Run(verdicts).value;
            if NoneDecides(verdicts) then ruling == FilterDecision(Uncertain, "", "")
            else exists k :: FirstToDecide(verdicts, k) && ruling == verdicts[k].value
  {
    var first := FirstLoud(verdicts, 0);
    FirstToStopDecides(verdicts, first);
    if first < |verdicts| {
      assert FirstToDecide(verdicts, first);
    }
  }

  lemma {:induction false} DeliverySays(cfg: Config, work: Work, now: Time, s: State, msg: RawMessage)
    requires DoWork(cfg, work, now, s, msg).1 == Completed(Emitted)
    ensures var t := DoWork(cfg, work, now, s, msg).0;
            && |t.emitted| == |s.emitted| + 1 && t.emitted[..|s.emitted|] == s.emitted
            && EventSays(cfg, work, msg, t.emitted[|s.emitted|])
  {
    ChainSays(work.verdicts);
  }

  lemma {:induction false} DroppingSays(cfg: Config, work: Work, now: Time, s: State, msg: RawMessage)
    requires DoWork(cfg, work, now, s, msg).1 == Completed(Dropped)
    ensures var t := DoWork(cfg, work, now, s, msg).0;
            && |t.observed| == |s.observed| + 1 && t.observed[..|s.observed|] == s.observed && t.emitted == s.emitted
            && var trace := t.observed[|s.observed|];
               DropSays(cfg, work, trace.matchedFilter, trace.reason)
  {
    ChainSays(work.verdicts);
  }

  // ---- A visit ----

  /** What a visit that ends so has added to the logs, and for a dead letter to the store. */
  ghost predicate VisitSays(cfg: Config, v: Visit, count: nat, msg: RawMessage, s: State, t: State, step: Step) {
    && (if step == Terminal(Emitted) then OneMore(s.emitted, t.emitted) && EmittedBy(cfg, v, msg, Last(t.emitted))
        else t.emitted == s.emitted)
    && (if step.Terminal?
        then OneMore(s.observed, t.observed) && Last(t.observed).disposition == step.disposition
             && TraceSays(cfg, v, msg, Last(t.observed))
        else t.observed == s.observed)
    && (step == Pending ==>
          InBounds(cfg, v, msg) && FirstFailure(Calls(cfg, v.first)) == Some(Transient) && count < cfg.maxAttempts)
    && (step == Terminal(DeadLettered) ==>
          && (Last(t.observed).reason == Failed(Transient) ==> cfg.maxAttempts <= count)
          && OneMore(s.dlqEvents, t.dlqEvents) && SunkSays(cfg, msg, Last(t.dlqEvents))
          && OneMore(s.report.dlq, t.report.dlq)
          && Last(t.report.dlq) == DeadLetter(Last(t.observed).key, Last(t.observed).reason)
          && (cfg.durable ==> exists r :: r in t.dead && RecordSays(cfg, v, msg, count, r)))
  }

  predicate OneMore<T(==)>(before: seq<T>, after: seq<T>) {
    |after| == |before| + 1 && after[..|before|] == before
  }

  function Last<T>(log: seq<T>): T
    requires log != []
  {
    log[|log| - 1]
  }

  /** No log has moved. */
  predicate SameLogs(s: State, t: State) {
    t.emitted == s.emitted && t.observed == s.observed && t.dlqEvents == s.dlqEvents && t.dead == s.dead
    && t.report.dlq == s.report.dlq
  }

  lemma FailedWorkIsSilent(cfg: Config, work: Work, now: Time, s: State, msg: RawMessage)
    requires DoWork(cfg, work, now, s, msg).1.Failing?
    ensures SameLogs(s, DoWork(cfg, work, now, s, msg).0)
  {
  }

  lemma CompletedWorkTraces(cfg: Config, work: Work, now: Time, s: State, msg: RawMessage)
    requires DoWork(cfg, work, now, s, msg).1.Completed?
    ensures var (t, end) := DoWork(cfg, work, now, s, msg);
            && end.disposition in {Emitted, Dropped} && OneMore(s.observed, t.observed)
            && var trace := Last(t.observed);
               && trace.disposition == end.disposition && IsKeyOf(cfg, msg, trace.key)
               && (trace.disposition == Emitted ==>
                     trace.stage == "emit" && trace.matchedFilter == "" && trace.reason == Unstated)
               && (trace.disposition == Dropped ==> trace.stage == "filter" && t.emitted == s.emitted)
  {
    KeySays(cfg, msg);
  }

  lemma KeySays(cfg: Config, msg: RawMessage)
    ensures IsKeyOf(cfg, msg, KeyOf(cfg, msg))
  {
    assert ['|'] == "|";
  }

  /** This is the work body whose end counts. */
  predicate Counts(cfg: Config, v: Visit, work: Work) {
    match FirstFailure(Calls(cfg, v.first))
    case None => work == v.first
    case Some(failure) => failure == Auth && work == v.second
  }

  lemma {:induction false} WorkSays(cfg: Config, v: Visit, work: Work, count: nat, s: State, msg: RawMessage)
    requires InBounds(cfg, v, msg) && Counts(cfg, v, work) && DoWork(cfg, work, v.now, s, msg).1.Completed?
    ensures var (t, end) := DoWork(cfg, work, v.now, s, msg);
            VisitSays(cfg, v, count, msg, s, t, Terminal(end.disposition))
  {
    CompletedWorkTraces(cfg, work, v.now, s, msg);
    if DoWork(cfg, work, v.now, s, msg).1.disposition == Emitted {
      DeliverySays(cfg, work, v.now, s, msg);
    } else {
      DroppingSays(cfg, work, v.now, s, msg);
    }
  }

  lemma {:induction false} RecordIsSaid(cfg: Config, v: Visit, msg: RawMessage, reason: Reason, count: nat,
                                        records: DeadLetters)
    requires ReasonSays(cfg, v, msg, reason)
    ensures var r := RecordFor(cfg, msg, reason, AttemptTold(cfg, v, msg, count), v.recordedAt);
            r in Put(records, r) && RecordSays(cfg, v, msg, count, r)
  {
    var r := RecordFor(cfg, msg, reason, AttemptTold(cfg, v, msg, count), v.recordedAt);
    KeySays(cfg, msg);
    PutStores(records, r);
    Base64.RoundTrip(msg.rawBytes);
  }

  lemma {:induction false} DeadLetterLogs(cfg: Config, v: Visit, s: State, msg: RawMessage, reason: Reason,
                                          attempts: nat)
    requires DeadLettering(cfg, v, s, msg, reason, attempts).1.Terminal?
    ensures var (t, step) := DeadLettering(cfg, v, s, msg, reason, attempts);
            && step == Terminal(DeadLettered) && t.emitted == s.emitted
            && t.observed == s.observed + [Trace(KeyOf(cfg, msg), DeadLettered, "dlq", "", reason)]
            && t.report.dlq == s.report.dlq + [DeadLetter(KeyOf(cfg, msg), reason)]
            && OneMore(s.dlqEvents, t.dlqEvents) && SunkSays(cfg, msg, Last(t.dlqEvents))
            && (cfg.durable ==> t.dead == Put(s.dead, RecordFor(cfg, msg, reason, attempts, v.recordedAt)))
  {
  }

  lemma DeadLetterEscapes(cfg: Config, v: Visit, s: State, msg: RawMessage, reason: Reason, attempts: nat)
    requires !DeadLettering(cfg, v, s, msg, reason, attempts).1.Terminal?
    ensures var (t, step) := DeadLettering(cfg, v, s, msg, reason, attempts);
            step == Escaped && t.emitted == s.emitted && t.observed == s.observed
  {
  }

  lemma {:induction false} DeadLetterSays(cfg: Config, v: Visit, count: nat, before: State, s: State, msg: RawMessage,
                                          reason: Reason, attempts: nat)
    requires SameLogs(before, s) && ReasonSays(cfg, v, msg, reason) && attempts == AttemptTold(cfg, v, msg, count)
    requires reason == Failed(Transient) ==> cfg.maxAttempts <= count
    ensures var (t, step) := DeadLettering(cfg, v, s, msg, reason, attempts);
            VisitSays(cfg, v, count, msg, before, t, step)
  {
    if DeadLettering(cfg, v, s, msg, reason, attempts).1.Terminal? {
      KeySays(cfg, msg);
      DeadLetterLogs(cfg, v, s, msg, reason, attempts);
      RecordIsSaid(cfg, v, msg, reason, count, s.dead);
    } else {
      DeadLetterEscapes(cfg, v, s, msg, reason, attempts);
    }
  }

  lemma {:induction false} RefreshSays(cfg: Config, v: Visit, count: nat, before: State, s: State, msg: RawMessage)
    requires SameLogs(before, s) && Fits(cfg, v, msg) && FirstFailure(Calls(cfg, v.first)) == Some(Auth)
    ensures var (t, step) := RefreshAndRetryOnce(cfg, v, s, msg);
            VisitSays(cfg, v, count, msg, before, t, step)
  {
    if !(cfg.refreshes && v.refresh.Raise?) {
      var (worked, end) := DoWork(cfg, v.second, v.now, s, msg);
      WorkFailsFirst(cfg, v.second, v.now, s, msg);
      SizeSays(cfg, v, msg);
      if end.Completed? {
        WorkSays(cfg, v, v.second, count, s, msg);
        SaysFrom(cfg, v, count, msg, before, s, worked, Terminal(end.disposition));
      } else {
        FailedWorkIsSilent(cfg, v.second, v.now, s, msg);
        DeadLetterSays(cfg, v, count, before, worked, msg, AuthRetryFailed(Auth, end.failure), 1);
      }
    }
  }

  lemma SaysFrom(cfg: Config, v: Visit, count: nat, msg: RawMessage, before: State, s: State, t: State, step: Step)
    requires SameLogs(before, s) && VisitSays(cfg, v, count, msg, s, t, step)
    ensures VisitSays(cfg, v, count, msg, before, t, step)
  {
  }

  lemma SizeSays(cfg: Config, v: Visit, msg: RawMessage)
    requires v.size.Ok?
    ensures CountsAs(v, msg, SizeOf(v.size.value, msg))
    ensures forall size | CountsAs(v, msg, size) :: size == SizeOf(v.size.value, msg)
  {
  }

  lemma {:induction false} FirstWorkSays(cfg: Config, v: Visit, count: nat, s: State, msg: RawMessage)
    requires Fits(cfg, v, msg) && Attempts(s.claims, KeyOf(cfg, msg)) == count
    ensures var (t, step) := Attempt(cfg, v, s, msg);
            VisitSays(cfg, v, count, msg, s, t, step)
  {
    var (worked, end) := DoWork(cfg, v.first, v.now, s, msg);
    WorkFailsFirst(cfg, v.first, v.now, s, msg);
    SizeSays(cfg, v, msg);
    if end.Completed? {
      WorkSays(cfg, v, v.first, count, s, msg);
    } else {
      FailedWorkIsSilent(cfg, v.first, v.now, s, msg);
      match end.failure {
        case Permanent => DeadLetterSays(cfg, v, count, s, worked, msg, Failed(Permanent), count);
        case Auth => RefreshSays(cfg, v, count, s, worked, msg);
        case Transient =>
          if cfg.maxAttempts <= count {
            DeadLetterSays(cfg, v, count, s, worked, msg, Failed(Transient), count);
          }
      }
    }
  }

  lemma {:induction false} AttemptSays(cfg: Config, v: Visit, count: nat, s: State, msg: RawMessage)
    requires Attempts(s.claims, KeyOf(cfg, msg)) == count
    ensures var (t, step) := Attempt(cfg, v, s, msg);
            VisitSays(cfg, v, count, msg, s, t, step)
  {
    if v.size.Ok? {
      var size := SizeOf(v.size.value, msg);
      SizeSays(cfg, v, msg);
      if size <= 0 {
        DeadLetterSays(cfg, v, count, s, s, msg, SizeUnknown(size), count);
      } else if cfg.maxMessageBytes < size {
        DeadLetterSays(cfg, v, count, s, s, msg, Oversized(size, cfg.maxMessageBytes), count);
      } else {
        FirstWorkSays(cfg, v, count, s, msg);
      }
    }
  }

  /** Whatever a visit is answered: the event it emits carries what its work extracted, the
      trace it leaves says what was decided and why, and the dead letter it sinks and records
      is the message's, with the reason and the attempt of this visit. */
  lemma {:induction false} EveryVisitSays(cfg: Config, world: World, s: State, msg: RawMessage)
    ensures var (t, step) := Process(cfg, world, s, msg);
            VisitSays(cfg, world(s.visits, msg), Attempts(s.claims, KeyOf(cfg, msg)) + 1, msg, s, t, step)
  {
    KeySays(cfg, msg);
    if Claimable(s.claims, KeyOf(cfg, msg)) {
      var entered := Entered(cfg, s, msg);
      AttemptSays(cfg, world(s.visits, msg), Attempts(s.claims, KeyOf(cfg, msg)) + 1, entered, msg);
      assert Process(cfg, world, s, msg) == Attempt(cfg, world(s.visits, msg), entered, msg);
    }
  }

  // ---- A run ----

  /** Visits of one run, each of a message in this pool, in the order they were made. */
  ghost predicate InOrder(origins: seq<(nat, RawMessage)>, pool: seq<RawMessage>, from: nat, to: nat) {
    && (forall k | 0 <= k < |origins| :: from <= origins[k].0 < to && origins[k].1 in pool)
    && (forall j, k | 0 <= j < k < |origins| :: origins[j].0 < origins[k].0)
  }

  /** What a visit may be said to have added to a log. */
  type Teller<!T> = (nat, RawMessage, T) -> bool

  ghost function EventTeller(cfg: Config, world: World): Teller<EmailEvent> {
    (n: nat, msg: RawMessage, e: EmailEvent) => EmittedBy(cfg, world(n, msg), msg, e)
  }

  ghost function TraceTeller(cfg: Config, world: World): Teller<Trace> {
    (n: nat, msg: RawMessage, trace: Trace) => TraceSays(cfg, world(n, msg), msg, trace)
  }

  /** The log's new entries are those of these visits, one each. */
  ghost predicate EntriesOf<T(!new)>(said: Teller<T>, before: seq<T>, after: seq<T>, origins: seq<(nat, RawMessage)>) {
    && |after| == |before| + |origins| && after[..|before|] == before
    && forall k | 0 <= k < |origins| :: said(origins[k].0, origins[k].1, after[|before| + k])
  }

  ghost predicate LogTold<T(!new)>(said: Teller<T>, pool: seq<RawMessage>, from: nat, to: nat, before: seq<T>,
                                   after: seq<T>) {
    exists origins :: InOrder(origins, pool, from, to) && EntriesOf(said, before, after, origins)
  }

  /** Every event emitted and every trace left between these states says what its visit was
      answered: one visit for each, in order, to a message of the pool. */
  ghost predicate Told(cfg: Config, world: World, pool: seq<RawMessage>, s: State, t: State) {
    && s.visits <= t.visits
    && LogTold(EventTeller(cfg, world), pool, s.visits, t.visits, s.emitted, t.emitted)
    && LogTold(TraceTeller(cfg, world), pool, s.visits, t.visits, s.observed, t.observed)
  }

  lemma OrderJoins(left: seq<(nat, RawMessage)>, right: seq<(nat, RawMessage)>, pool: seq<RawMessage>,
                   more: seq<RawMessage>, from: nat, mid: nat, to: nat)
    requires InOrder(left, pool, from, mid) && InOrder(right, pool, mid, to) && from <= mid <= to
    requires forall msg | msg in pool :: msg in more
    ensures InOrder(left + right, more, from, to)
  {
  }

  lemma EntriesJoin<T(!new)>(said: Teller<T>, before: seq<T>, mid: seq<T>, after: seq<T>,
                             left: seq<(nat, RawMessage)>, right: seq<(nat, RawMessage)>)
    requires EntriesOf(said, before, mid, left) && EntriesOf(said, mid, after, right)
    ensures EntriesOf(said, before, after, left + right)
  {
    var both: seq<(nat, RawMessage)> := left + right;
    forall k | 0 <= k < |both| ensures said(both[k].0, both[k].1, after[|before| + k]) {
      if k < |left| {
        assert after[|before| + k] == after[..|mid|][|before| + k];
      } else {
        assert both[k] == right[k - |left|];
      }
    }
    assert after[..|before|] == after[..|mid|][..|before|];
  }

  lemma LogJoins<T(!new)>(said: Teller<T>, pool: seq<RawMessage>, more: seq<RawMessage>, from: nat, mid: nat, to: nat,
                          before: seq<T>, between: seq<T>, after: seq<T>)
    requires LogTold(said, pool, from, mid, before, between) && LogTold(said, pool, mid, to, between, after)
    requires from <= mid <= to && forall msg | msg in pool :: msg in more
    ensures LogTold(said, more, from, to, before, after)
  {
    var left :| InOrder(left, pool, from, mid) && EntriesOf(said, before, between, left);
    var right :| InOrder(right, pool, mid, to) && EntriesOf(said, between, after, right);
    OrderJoins(left, right, pool, more, from, mid, to);
    EntriesJoin(said, before, between, after, left, right);
  }

  lemma SameLogTold<T(!new)>(said: Teller<T>, pool: seq<RawMessage>, from: nat, to: nat, log: seq<T>)
    ensures LogTold(said, pool, from, to, log, log)
  {
    assert InOrder([], pool, from, to) && EntriesOf(said, log, log, []);
  }

  lemma OneLogTold<T(!new)>(said: Teller<T>, msg: RawMessage, n: nat, before: seq<T>, after: seq<T>)
    requires OneMore(before, after) && said(n, msg, Last(after))
    ensures LogTold(said, [msg], n, n + 1, before, after)
  {
    assert InOrder([(n, msg)], [msg], n, n + 1) && EntriesOf(said, before, after, [(n, msg)]);
  }

  lemma ToldJoins(cfg: Config, world: World, pool: seq<RawMessage>, more: seq<RawMessage>, s: State, t: State, u: State)
    requires Told(cfg, world, pool, s, t) && Told(cfg, world, pool, t, u) && forall msg | msg in pool :: msg in more
    ensures Told(cfg, world, more, s, u)
  {
    LogJoins(EventTeller(cfg, world), pool, more, s.visits, t.visits, u.visits, s.emitted, t.emitted, u.emitted);
    LogJoins(TraceTeller(cfg, world), pool, more, s.visits, t.visits, u.visits, s.observed, t.observed, u.observed);
  }

  lemma SameIsTold(cfg: Config, world: World, pool: seq<RawMessage>, s: State, t: State)
    requires t.emitted == s.emitted && t.observed == s.observed && s.visits <= t.visits
    ensures Told(cfg, world, pool, s, t)
  {
    SameLogTold(EventTeller(cfg, world), pool, s.visits, t.visits, s.emitted);
    SameLogTold(TraceTeller(cfg, world), pool, s.visits, t.visits, s.observed);
  }

  lemma EventIsTold(cfg: Config, world: World, count: nat, msg: RawMessage, s: State, t: State, step: Step)
    requires VisitSays(cfg, world(s.visits, msg), count, msg, s, t, step)
    ensures LogTold(EventTeller(cfg, world), [msg], s.visits, s.visits + 1, s.emitted, t.emitted)
  {
    if step == Terminal(Emitted) {
      OneLogTold(EventTeller(cfg, world), msg, s.visits, s.emitted, t.emitted);
    } else {
      SameLogTold(EventTeller(cfg, world), [msg], s.visits, s.visits + 1, s.emitted);
    }
  }

  lemma TraceIsTold(cfg: Config, world: World, count: nat, msg: RawMessage, s: State, t: State, step: Step)
    requires VisitSays(cfg, world(s.visits, msg), count, msg, s, t, step)
    ensures LogTold(TraceTeller(cfg, world), [msg], s.visits, s.visits + 1, s.observed, t.observed)
  {
    if step.Terminal? {
      OneLogTold(TraceTeller(cfg, world), msg, s.visits, s.observed, t.observed);
    } else {
      SameLogTold(TraceTeller(cfg, world), [msg], s.visits, s.visits + 1, s.observed);
    }
  }

  lemma {:induction false} VisitIsTold(cfg: Config, world: World, s: State, msg: RawMessage)
    ensures Told(cfg, world, [msg], s, Process(cfg, world, s, msg).0)
  {
    var (t, step) := Process(cfg, world, s, msg);
    var count := Attempts(s.claims, KeyOf(cfg, msg)) + 1;
    EveryVisit(cfg, world, s, msg);
    EveryVisitSays(cfg, world, s, msg);
    EventIsTold(cfg, world, count, msg, s, t, step);
    TraceIsTold(cfg, world, count, msg, s, t, step);
  }

  ghost predicate Telling(cfg: Config, world: World, handle: Handler) {
    forall s, msg :: Told(cfg, world, [msg], s, handle(s, msg).0)
  }

  lemma ProcessTells(cfg: Config, world: World)
    ensures Telling(cfg, world, Handling(cfg, world))
  {
    forall s, msg ensures Told(cfg, world, [msg], s, Handling(cfg, world)(s, msg).0) {
      VisitIsTold(cfg, world, s, msg);
    }
  }

  lemma ToldMore(cfg: Config, world: World, pool: seq<RawMessage>, more: seq<RawMessage>, s: State, t: State,
                 s': State, t': State)
    requires Told(cfg, world, pool, s, t) && forall msg | msg in pool :: msg in more
    requires s'.emitted == s.emitted && s'.observed == s.observed && s'.visits == s.visits
    requires t'.emitted == t.emitted && t'.observed == t.observed && t'.visits == t.visits
    ensures Told(cfg, world, more, s', t')
  {
    SameIsTold(cfg, world, pool, t, t);
    ToldJoins(cfg, world, pool, more, s, t, t);
  }

  lemma {:induction false} StreamIsTold(cfg: Config, world: World, handle: Handler, s: State, stream: StreamRef,
                                        batch: seq<RawMessage>, blocked: bool)
    requires Telling(cfg, world, handle)
    ensures Told(cfg, world, batch, s, RunStream(cfg, handle, s, stream, batch, blocked).state)
    decreases |batch|
  {
    if batch == [] {
      SameIsTold(cfg, world, batch, s, s);
    } else {
      var (next, step) := Advance(cfg, handle, s, stream, batch[0], blocked);
      var mid := handle(Counted(s), batch[0]).0;
      assert Told(cfg, world, [batch[0]], Counted(s), mid);
      ToldMore(cfg, world, [batch[0]], batch, Counted(s), mid, s, next);
      if !step.Escaped? {
        var end := RunStream(cfg, handle, next, stream, batch[1..], blocked || step.Pending?).state;
        StreamIsTold(cfg, world, handle, next, stream, batch[1..], blocked || step.Pending?);
        ToldMore(cfg, world, batch[1..], batch, next, end, next, end);
        ToldJoins(cfg, world, batch, batch, s, next, end);
      }
    }
  }

  /** All the mail of a feed. */
  function Pool(boxes: seq<Mailbox>): seq<RawMessage> {
    if boxes == [] then [] else boxes[0].messages + Pool(boxes[1..])
  }

  lemma {:induction false} BoxesAreTold(cfg: Config, world: World, handle: Handler, feed: Feed, s: State,
                                        boxes: seq<Mailbox>)
    requires Telling(cfg, world, handle)
    ensures Told(cfg, world, Pool(boxes), s, RunBoxes(cfg, handle, feed, s, boxes).state)
    decreases |boxes|
  {
    if boxes == [] {
      SameIsTold(cfg, world, Pool(boxes), s, s);
    } else {
      var batch := Fetch(feed, cfg, boxes[0], s.cursors);
      var first := RunStream(cfg, handle, s, boxes[0].stream, batch, false);
      StreamIsTold(cfg, world, handle, s, boxes[0].stream, batch, false);
      ToldMore(cfg, world, batch, Pool(boxes), s, first.state, s, first.state);
      if !first.escaped {
        var end := RunBoxes(cfg, handle, feed, first.state, boxes[1..]).state;
        BoxesAreTold(cfg, world, handle, feed, first.state, boxes[1..]);
        ToldMore(cfg, world, Pool(boxes[1..]), Pool(boxes), first.state, end, first.state, end);
        ToldJoins(cfg, world, Pool(boxes), Pool(boxes), s, first.state, end);
      }
    }
  }

  /** So it is over a whole run: every event and every trace is that of one visit to a message
      of the feed, in the order of the visits, and says what that visit was answered. */
  lemma EveryRunSays(cfg: Config, world: World, feed: Feed, s: State)
    ensures Told(cfg, world, Pool(feed.boxes), s, RunOnce(cfg, world, feed, s).state)
  {
    var start, end := s.(report := EMPTY_REPORT), RunOnce(cfg, world, feed, s).state;
    ProcessTells(cfg, world);
    BoxesAreTold(cfg, world, Handling(cfg, world), feed, start, feed.boxes);
    ToldMore(cfg, world, Pool(feed.boxes), Pool(feed.boxes), start, end, s, end);
  }
}
