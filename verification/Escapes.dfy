/** Exceptions that leave the pipeline: when a visit lets one out, when a run can, and what
    the claim it leaves behind costs. */
module Escapes {
  import opened Models
  import opened Observability
  import opened MemoryStores
  import opened Delivery
  import opened Visits
  import opened Runs
  import opened LowWater
  import opened Outcomes
  import opened Scenarios
  import Convergence
  import FilterChain

  // ---- One visit ----

  function FailureIn<T>(answer: Answer<T>): Option<Failure> {
    if answer.Raise? then Some(answer.failure) else None
  }

  /** The failures of the calls a work body would make, in order. */
  function Calls(cfg: Config, work: Work): seq<Option<Failure>> {
    var verdict := FilterChain.Run(work.verdicts);
    [FailureIn(work.parse), FailureIn(verdict)] +
    if verdict.Raise? || (cfg.dropFiltered && verdict.value.decision == FilterChain.Drop) then []
    else (if cfg.classifies && verdict.value.decision == FilterChain.Uncertain then [FailureIn(work.classify)] else [])
         + [FailureIn(work.extract), FailureIn(work.emit)]
  }

  function FirstFailure(calls: seq<Option<Failure>>): Option<Failure> {
    if calls == [] then None else if calls[0].Some? then calls[0] else FirstFailure(calls[1..])
  }

  /** A work body fails with the first failure among its calls, and only then. */
  lemma {:induction false} WorkFailsFirst(cfg: Config, work: Work, now: Time, s: State, msg: RawMessage)
    ensures var end := DoWork(cfg, work, now, s, msg).1;
            FirstFailure(Calls(cfg, work)) == if end.Failing? then Some(end.failure) else None
  {
    var verdict := FilterChain.Run(work.verdicts);
    var parse, ruling := FailureIn(work.parse), FailureIn(verdict);
    var classify, extract, emit := FailureIn(work.classify), FailureIn(work.extract), FailureIn(work.emit);
    var asks := verdict.Ok? && cfg.classifies && verdict.value.decision == FilterChain.Uncertain;
    var stops := verdict.Raise? || (cfg.dropFiltered && verdict.value.decision == FilterChain.Drop);
    var rest := if stops then [] else (if asks then [classify] else []) + [extract, emit];
    assert Calls(cfg, work) == [parse] + ([ruling] + rest);
    FirstCons(parse, [ruling] + rest);
    FirstCons(ruling, rest);
    FirstCons(extract, [emit]);
    FirstCons(emit, []);
    FirstCons(classify, [extract, emit]);
    assert [extract, emit] == [extract] + [emit] && [emit] == [emit] + [];
    assert !stops && !asks ==> rest == [extract, emit];
  }

  lemma FirstCons(call: Option<Failure>, rest: seq<Option<Failure>>)
    ensures FirstFailure([call] + rest) == if call.Some? then call else FirstFailure(rest)
  {
    assert ([call] + rest)[1..] == rest;
  }

  predicate Fits(cfg: Config, v: Visit, msg: RawMessage) {
    v.size.Ok? && 0 < SizeOf(v.size.value, msg) <= cfg.maxMessageBytes
  }

  /** The visit refreshes credentials. */
  predicate Refreshing(cfg: Config, v: Visit, msg: RawMessage) {
    cfg.refreshes && Fits(cfg, v, msg) && FirstFailure(Calls(cfg, v.first)) == Some(Auth)
  }

  /** The visit, being the `attempts`-th, takes the dead-letter path. */
  predicate DeadLetters(cfg: Config, v: Visit, attempts: nat, msg: RawMessage) {
    v.size.Ok? &&
    (!Fits(cfg, v, msg) ||
     match FirstFailure(Calls(cfg, v.first))
     case None => false
     case Some(Permanent) => true
     case Some(Auth) => FirstFailure(Calls(cfg, v.second)).Some?
     case Some(Transient) => cfg.maxAttempts <= attempts)
  }

  /** The size call raises, or the refresh where there is one, or the sink or the durable
      store on the dead-letter path. */
  predicate LetsOut(cfg: Config, v: Visit, attempts: nat, msg: RawMessage) {
    || v.size.Raise?
    || (Refreshing(cfg, v, msg) && v.refresh.Raise?)
    || (DeadLetters(cfg, v, attempts, msg) && (v.dlqEmit.Raise? || (cfg.durable && v.dlqPut.Raise?)))
  }

  lemma AttemptLetsOut(cfg: Config, v: Visit, s: State, msg: RawMessage)
    ensures Attempt(cfg, v, s, msg).1.Escaped? <==> LetsOut(cfg, v, Attempts(s.claims, KeyOf(cfg, msg)), msg)
  {
    if Fits(cfg, v, msg) {
      var (worked, end) := DoWork(cfg, v.first, v.now, s, msg);
      WorkFailsFirst(cfg, v.first, v.now, s, msg);
      WorkFailsFirst(cfg, v.second, v.now, worked, msg);
    }
  }

  /** An exception leaves a visit if and only if its claim was won and one of the four calls
      raises on the branch that makes it. */
  lemma {:induction false} EscapesExactly(cfg: Config, world: World, s: State, msg: RawMessage)
    ensures Process(cfg, world, s, msg).1.Escaped? <==>
            Claimable(s.claims, KeyOf(cfg, msg))
            && LetsOut(cfg, world(s.visits, msg), Attempts(s.claims, KeyOf(cfg, msg)) + 1, msg)
  {
    if Claimable(s.claims, KeyOf(cfg, msg)) {
      AttemptLetsOut(cfg, world(s.visits, msg), Entered(cfg, s, msg), msg);
      assert Process(cfg, world, s, msg) == Attempt(cfg, world(s.visits, msg), Entered(cfg, s, msg), msg);
    }
  }

  // ---- One run ----

  /** Nothing of these boxes can be claimed. */
  ghost predicate NothingToClaim(cfg: Config, feed: Feed, s: State, b: nat) {
    forall c, msg | b <= c < |feed.boxes| && msg in Fetch(feed, cfg, feed.boxes[c], s.cursors) ::
      !Claimable(s.claims, KeyOf(cfg, msg))
  }

  /** An escape as soon as anything is claimed. */
  ghost predicate Bursting(cfg: Config, handle: Handler) {
    forall s: State, msg :: Claimable(s.claims, KeyOf(cfg, msg)) ==> handle(s, msg).1.Escaped?
  }

  lemma TakenTurn(cfg: Config, handle: Handler, s: State, stream: StreamRef, msg: RawMessage, blocked: bool)
    requires Sound(cfg, handle)
    ensures var (next, step) := Advance(cfg, handle, s, stream, msg, blocked);
            && (!Claimable(s.claims, KeyOf(cfg, msg)) ==> step == Terminal(Duplicate) && next.claims == s.claims)
            && (Bursting(cfg, handle) && !step.Escaped? ==> !Claimable(s.claims, KeyOf(cfg, msg)))
  {
    EveryTurn(cfg, handle, s, stream, msg, blocked);
    assert Claimable(Counted(s).claims, KeyOf(cfg, msg)) && Bursting(cfg, handle) ==>
          handle(Counted(s), msg).1.Escaped?;
  }

  lemma {:induction false} StreamOfTaken(cfg: Config, handle: Handler, s: State, stream: StreamRef,
                                         batch: seq<RawMessage>, blocked: bool)
    requires Sound(cfg, handle)
    requires (forall msg | msg in batch :: !Claimable(s.claims, KeyOf(cfg, msg)))
             || (Bursting(cfg, handle) && !RunStream(cfg, handle, s, stream, batch, blocked).escaped)
    ensures var run := RunStream(cfg, handle, s, stream, batch, blocked);
            !run.escaped && run.state.claims == s.claims
            && forall msg | msg in batch :: !Claimable(s.claims, KeyOf(cfg, msg))
    decreases |batch|
  {
    if batch != [] {
      var (next, step) := Advance(cfg, handle, s, stream, batch[0], blocked);
      assert batch == [batch[0]] + batch[1..];
      TakenTurn(cfg, handle, s, stream, batch[0], blocked);
      assert !Claimable(s.claims, KeyOf(cfg, batch[0]));
      StreamOfTaken(cfg, handle, next, stream, batch[1..], blocked || step.Pending?);
    }
  }

  /** A stream that moves only its own cursor leaves what the other boxes fetch alone. */
  lemma OtherFetchesStay(cfg: Config, handle: Handler, feed: Feed, s: State, b: nat, batch: seq<RawMessage>)
    requires Sound(cfg, handle) && WellFed(feed) && b < |feed.boxes|
    requires feed.boxes[b].messages == [] ==> batch == []
    ensures var after := RunStream(cfg, handle, s, feed.boxes[b].stream, batch, false).state.cursors;
            forall c | b < c < |feed.boxes| ::
              Fetch(feed, cfg, feed.boxes[c], after) == Fetch(feed, cfg, feed.boxes[c], s.cursors)
  {
    var after := RunStream(cfg, handle, s, feed.boxes[b].stream, batch, false).state.cursors;
    Convergence.OthersStay(cfg, handle, s, feed.boxes[b].stream, batch, false);
    forall c | b < c < |feed.boxes|
      ensures Fetch(feed, cfg, feed.boxes[c], after) == Fetch(feed, cfg, feed.boxes[c], s.cursors)
    {
      assert feed.boxes[b].messages != [] && feed.boxes[c].messages != [] ==>
          SlotOf(cfg, feed.boxes[c].stream) != SlotOf(cfg, feed.boxes[b].stream);
    }
  }

  lemma {:induction false} BoxesOfTaken(cfg: Config, handle: Handler, feed: Feed, s: State, b: nat)
    requires Sound(cfg, handle) && WellFed(feed) && b <= |feed.boxes|
    requires NothingToClaim(cfg, feed, s, b)
             || (Bursting(cfg, handle) && !RunBoxes(cfg, handle, feed, s, feed.boxes[b..]).escaped)
    ensures !RunBoxes(cfg, handle, feed, s, feed.boxes[b..]).escaped && NothingToClaim(cfg, feed, s, b)
    decreases |feed.boxes| - b
  {
    if b < |feed.boxes| {
      var box, boxes := feed.boxes[b], feed.boxes[b..];
      assert boxes[0] == box && boxes[1..] == feed.boxes[b + 1..];
      var batch := Fetch(feed, cfg, box, s.cursors);
      var first := RunStream(cfg, handle, s, box.stream, batch, false);
      StreamOfTaken(cfg, handle, s, box.stream, batch, false);
      OtherFetchesStay(cfg, handle, feed, s, b, batch);
      BoxesOfTaken(cfg, handle, feed, first.state, b + 1);
    }
  }

  /** Every size call raises. */
  const BURST: World := (n, msg) => SMOOTH_VISIT.(size := Raise(Transient))

  lemma BurstIsBursting(cfg: Config)
    ensures Bursting(cfg, Handling(cfg, BURST))
  {
    forall s: State, msg | Claimable(s.claims, KeyOf(cfg, msg)) ensures Handling(cfg, BURST)(s, msg).1.Escaped? {
      EscapesExactly(cfg, BURST, s, msg);
    }
  }

  /** Some world lets an exception out of the run if and only if the run fetches a message
      that can be claimed when it starts. */
  lemma {:induction false} SomeRunEscapesExactly(cfg: Config, feed: Feed, s: State)
    requires WellFed(feed)
    ensures (exists world: World :: RunOnce(cfg, world, feed, s).escaped) <==> !NothingToClaim(cfg, feed, s, 0)
  {
    var start := s.(report := EMPTY_REPORT);
    assert feed.boxes[0..] == feed.boxes;
    if NothingToClaim(cfg, feed, s, 0) {
      forall world: World ensures !RunOnce(cfg, world, feed, s).escaped {
        ProcessIsSound(cfg, world);
        BoxesOfTaken(cfg, Handling(cfg, world), feed, start, 0);
      }
    } else {
      ProcessIsSound(cfg, BURST);
      BurstIsBursting(cfg);
      if !RunOnce(cfg, BURST, feed, s).escaped {
        BoxesOfTaken(cfg, Handling(cfg, BURST), feed, start, 0);
      }
    }
  }

  // ---- Ever after ----

  /** The key is held, and since `s` no event and no durable record was made for it. */
  ghost predicate Stuck(cfg: Config, s: State, t: State, key: string) {
    && Held(t.claims, key) && s.emitted <= t.emitted
    && (forall k | |s.emitted| <= k < |t.emitted| :: t.emitted[k].idempotencyKey != key)
    && (Holds(t.dead, key) ==> Holds(s.dead, key))
  }

  lemma StuckCompose(cfg: Config, s: State, t: State, u: State, key: string)
    requires Stuck(cfg, s, t, key) && Stuck(cfg, t, u, key)
    ensures Stuck(cfg, s, u, key)
  {
    assert forall k | |s.emitted| <= k < |t.emitted| :: u.emitted[k] == t.emitted[k];
  }

  lemma {:induction false} VisitLeavesStuck(cfg: Config, s: State, msg: RawMessage, t: State, step: Step, key: string)
    requires Visited(cfg, s, msg, t, step) && Held(s.claims, key)
    ensures Stuck(cfg, s, t, key)
  {
    if step == Terminal(DeadLettered) && cfg.durable {
      var reason, attempts, now :| t.dead == Put(s.dead, RecordFor(cfg, msg, reason, attempts, now));
      PutStores(s.dead, RecordFor(cfg, msg, reason, attempts, now));
    }
  }

  lemma {:induction false} StreamLeavesStuck(cfg: Config, handle: Handler, s: State, stream: StreamRef,
                                             batch: seq<RawMessage>, blocked: bool, key: string)
    requires Sound(cfg, handle) && Held(s.claims, key)
    ensures Stuck(cfg, s, RunStream(cfg, handle, s, stream, batch, blocked).state, key)
    decreases |batch|
  {
    if batch != [] {
      var (next, step) := Advance(cfg, handle, s, stream, batch[0], blocked);
      EveryTurn(cfg, handle, s, stream, batch[0], blocked);
      VisitLeavesStuck(cfg, Counted(s), batch[0], handle(Counted(s), batch[0]).0, step, key);
      assert Stuck(cfg, s, next, key);
      if !step.Escaped? {
        StreamLeavesStuck(cfg, handle, next, stream, batch[1..], blocked || step.Pending?, key);
        StuckCompose(cfg, s, next, RunStream(cfg, handle, next, stream, batch[1..], blocked || step.Pending?).state,
                     key);
      }
    }
  }

  lemma {:induction false} BoxesLeaveStuck(cfg: Config, handle: Handler, feed: Feed, s: State, boxes: seq<Mailbox>,
                                           key: string)
    requires Sound(cfg, handle) && Held(s.claims, key)
    ensures Stuck(cfg, s, RunBoxes(cfg, handle, feed, s, boxes).state, key)
    decreases |boxes|
  {
    if boxes != [] {
      var batch := Fetch(feed, cfg, boxes[0], s.cursors);
      var first := RunStream(cfg, handle, s, boxes[0].stream, batch, false);
      StreamLeavesStuck(cfg, handle, s, boxes[0].stream, batch, false, key);
      if !first.escaped {
        BoxesLeaveStuck(cfg, handle, feed, first.state, boxes[1..], key);
        StuckCompose(cfg, s, first.state, RunBoxes(cfg, handle, feed, first.state, boxes[1..]).state, key);
      }
    }
  }

  /** With in-memory claims a held message stays held through any later runs over any feeds in
      any worlds: it is never emitted and never recorded as a dead letter again. */
  lemma {:induction false} HeldForever(cfg: Config, calls: seq<Call>, states: seq<State>, i: nat, key: string)
    requires History(Running(cfg), calls, states) && i < |states| && Held(states[0].claims, key)
    ensures Stuck(cfg, states[0], states[i], key)
  {
    if i > 0 {
      HeldForever(cfg, calls, states, i - 1, key);
      var call, before := calls[i - 1], states[i - 1];
      ProcessIsSound(cfg, call.world);
      BoxesLeaveStuck(cfg, Handling(cfg, call.world), call.feed, before.(report := EMPTY_REPORT), call.feed.boxes, key);
      assert states[i] == Running(cfg)(call, before);
      StuckCompose(cfg, states[0], before, states[i], key);
    }
  }

  // ---- A run that does it ----

  /** A message that is rejected for good while the dead-letter store is down. */
  const STORE_DOWN: World := (n, msg) => SMOOTH_VISIT.(first := REJECTED_WORK, dlqPut := Raise(Transient))

  lemma RejectedFirst(cfg: Config)
    ensures FirstFailure(Calls(cfg, REJECTED_WORK)) == Some(Permanent)
  {
  }

  lemma StoreDownVisit(cfg: Config, s: State, msg: RawMessage)
    requires cfg.durable && 1 <= cfg.maxMessageBytes && Claimable(s.claims, KeyOf(cfg, msg))
    ensures Process(cfg, STORE_DOWN, s, msg).1.Escaped?
  {
    RejectedFirst(cfg);
    EscapesExactly(cfg, STORE_DOWN, s, msg);
  }

  /** A run over one message that escapes leaves it held, with nothing sent or stored. */
  lemma {:induction false} EscapedRun(cfg: Config, handle: Handler, s: State, msg: RawMessage)
    requires Sound(cfg, handle) && Position(s.cursors, SlotOf(cfg, msg.stream)) < msg.cursor.order
    requires handle(Counted(s.(report := EMPTY_REPORT)), msg).1.Escaped?
    ensures var run := RunFeed(cfg, handle, OneMessage(msg, true), s);
            run.escaped && Held(run.state.claims, KeyOf(cfg, msg))
            && run.state.emitted == s.emitted && run.state.dead == s.dead
  {
    OneMessageFeed(cfg, handle, s, msg, true);
    EveryTurn(cfg, handle, s.(report := EMPTY_REPORT), msg.stream, msg, false);
  }

  lemma {:induction false} StoreDownEscapes(cfg: Config, msg: RawMessage)
    requires cfg.durable && 1 <= cfg.maxMessageBytes && 0 < msg.cursor.order
    ensures var run := RunOnce(cfg, STORE_DOWN, OneMessage(msg, true), EMPTY_STATE);
            run.escaped && Held(run.state.claims, KeyOf(cfg, msg)) && run.state.emitted == [] && run.state.dead == []
  {
    var handle, start := Handling(cfg, STORE_DOWN), Counted(EMPTY_STATE.(report := EMPTY_REPORT));
    StoreDownVisit(cfg, start, msg);
    assert handle(start, msg) == Process(cfg, STORE_DOWN, start, msg);
    ProcessIsSound(cfg, STORE_DOWN);
    EscapedRun(cfg, handle, EMPTY_STATE, msg);
  }

  /** A dead-letter store that is down once, for one rejected message, loses it: in any later
      runs, whatever they answer and fetch, it is neither emitted nor dead-lettered. */
  lemma {:induction false} StoreDownLoses(cfg: Config, msg: RawMessage, calls: seq<Call>, states: seq<State>, i: nat)
    requires cfg.durable && 1 <= cfg.maxMessageBytes && 0 < msg.cursor.order
    requires History(Running(cfg), calls, states) && i < |states|
    requires states[0] == RunOnce(cfg, STORE_DOWN, OneMessage(msg, true), EMPTY_STATE).state
    ensures var key := KeyOf(cfg, msg);
            && !IsDone(states[i].claims, key) && !Holds(states[i].dead, key)
            && forall k | 0 <= k < |states[i].emitted| :: states[i].emitted[k].idempotencyKey != key
  {
    StoreDownEscapes(cfg, msg);
    HeldForever(cfg, calls, states, i, KeyOf(cfg, msg));
    assert Stuck(cfg, states[0], states[i], KeyOf(cfg, msg));
  }
}
