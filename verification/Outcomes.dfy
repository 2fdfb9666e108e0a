/** One outcome for each message, over any sequence of runs of one worker. */
module Outcomes {
  import opened Models
  import opened Observability
  import opened MemoryStores
  import opened Delivery
  import opened Visits
  import opened Runs
  import opened LowWater
  import Convergence
  import FilterChain

  /** The keys of the traces with disposition `d`, oldest first. */
  function KeySeq(traces: seq<Trace>, d: Disposition): seq<string> {
    if traces == [] then []
    else
      var last := traces[|traces| - 1];
      KeySeq(traces[..|traces| - 1], d) + if last.disposition == d then [last.key] else []
  }

  function LogKeys(events: seq<EmailEvent>): seq<string> {
    if events == [] then []
    else LogKeys(events[..|events| - 1]) + [events[|events| - 1].idempotencyKey]
  }

  ghost predicate NoRepeats(keys: seq<string>) {
    forall i, j | 0 <= i < j < |keys| :: keys[i] != keys[j]
  }

  /** No key has two outcomes or one twice, and exactly the keys with an outcome are done. */
  ghost predicate OneEach(claims: Claims, emitted: seq<string>, dropped: seq<string>, dead: seq<string>) {
    && NoRepeats(emitted) && NoRepeats(dropped) && NoRepeats(dead)
    && (forall k :: !(k in emitted && k in dropped) && !(k in emitted && k in dead) && !(k in dropped && k in dead))
    && (forall k :: IsDone(claims, k) <==> k in emitted || k in dropped || k in dead)
  }

  /** One outcome each; the emitter log names the emitted messages in order; the durable
      store holds exactly the dead-lettered ones. */
  ghost predicate Ledger(cfg: Config, s: State) {
    && OneEach(s.claims, KeySeq(s.observed, Emitted), KeySeq(s.observed, Dropped), KeySeq(s.observed, DeadLettered))
    && LogKeys(s.emitted) == KeySeq(s.observed, Emitted)
    && (cfg.durable ==> forall k :: Holds(s.dead, k) <==> k in KeySeq(s.observed, DeadLettered))
  }

  lemma OutcomeAdded(before: Claims, after: Claims, key: string, d: Disposition, e: seq<string>, dr: seq<string>,
                     de: seq<string>)
    requires OneEach(before, e, dr, de) && SameElsewhere(before, after, key)
    requires !IsDone(before, key) && IsDone(after, key) && d != Duplicate
    ensures OneEach(after, if d == Emitted then e + [key] else e, if d == Dropped then dr + [key] else dr,
                    if d == DeadLettered then de + [key] else de)
  {
  }

  lemma KeySeqAppend(traces: seq<Trace>, t: Trace)
    ensures forall d :: KeySeq(traces + [t], d) == KeySeq(traces, d) + if t.disposition == d then [t.key] else []
  {
    assert (traces + [t])[..|traces|] == traces;
  }

  lemma LogKeysAppend(events: seq<EmailEvent>, e: EmailEvent)
    ensures LogKeys(events + [e]) == LogKeys(events) + [e.idempotencyKey]
  {
    assert (events + [e])[..|events|] == events;
  }

  /** A visit adds its key to the keys of its disposition, and to no others. */
  lemma {:induction false} VisitAddsKey(cfg: Config, s: State, msg: RawMessage, t: State, step: Step)
    requires Visited(cfg, s, msg, t, step)
    ensures forall d :: KeySeq(t.observed, d) == KeySeq(s.observed, d) +
                        if step == Terminal(d) then [KeyOf(cfg, msg)] else []
  {
    var traces :| TracesOf(KeyOf(cfg, msg), step, traces) && t.observed == s.observed + traces;
    if step.Terminal? {
      assert traces == [traces[0]];
      KeySeqAppend(s.observed, traces[0]);
    } else {
      assert s.observed + [] == s.observed;
    }
  }

  lemma VisitKeepsOneEach(cfg: Config, s: State, msg: RawMessage, t: State, step: Step, e: seq<string>,
                          dr: seq<string>, de: seq<string>)
    requires OneEach(s.claims, e, dr, de) && ClaimMoves(cfg, s.claims, t.claims, KeyOf(cfg, msg), step)
    ensures var key := KeyOf(cfg, msg);
            OneEach(t.claims, e + (if step == Terminal(Emitted) then [key] else []),
                    dr + (if step == Terminal(Dropped) then [key] else []),
                    de + (if step == Terminal(DeadLettered) then [key] else []))
  {
    assert e + [] == e && dr + [] == dr && de + [] == de;
    if step.Terminal? && step.disposition != Duplicate {
      OutcomeAdded(s.claims, t.claims, KeyOf(cfg, msg), step.disposition, e, dr, de);
    } else {
      assert forall k :: IsDone(t.claims, k) <==> IsDone(s.claims, k);
    }
  }

  lemma {:induction false} VisitKeepsLog(cfg: Config, s: State, msg: RawMessage, t: State, step: Step,
                                         emitted: seq<string>)
    requires LogsGrow(cfg, s, t, msg, step) && LogKeys(s.emitted) == emitted
    ensures LogKeys(t.emitted) == emitted + if step == Terminal(Emitted) then [KeyOf(cfg, msg)] else []
  {
    if step == Terminal(Emitted) {
      LogKeysAppend(s.emitted, t.emitted[|s.emitted|]);
    }
  }

  lemma {:induction false} VisitKeepsDead(cfg: Config, s: State, msg: RawMessage, t: State, step: Step,
                                          dead: seq<string>)
    requires LogsGrow(cfg, s, t, msg, step) && cfg.durable && forall k :: Holds(s.dead, k) <==> k in dead
    ensures var added := if step == Terminal(DeadLettered) then [KeyOf(cfg, msg)] else [];
            forall k :: Holds(t.dead, k) <==> k in dead + added
  {
    if step == Terminal(DeadLettered) {
      var reason, attempts, now :| t.dead == Put(s.dead, RecordFor(cfg, msg, reason, attempts, now));
      PutStores(s.dead, RecordFor(cfg, msg, reason, attempts, now));
    }
  }

  lemma {:induction false} VisitKeepsLedger(cfg: Config, s: State, msg: RawMessage, t: State, step: Step)
    requires Ledger(cfg, s) && Visited(cfg, s, msg, t, step)
    ensures Ledger(cfg, t)
  {
    VisitAddsKey(cfg, s, msg, t, step);
    var dead := KeySeq(s.observed, DeadLettered);
    VisitKeepsOneEach(cfg, s, msg, t, step, KeySeq(s.observed, Emitted), KeySeq(s.observed, Dropped), dead);
    VisitKeepsLog(cfg, s, msg, t, step, KeySeq(s.observed, Emitted));
    if cfg.durable {
      VisitKeepsDead(cfg, s, msg, t, step, dead);
    }
  }

  lemma {:induction false} StreamKeepsLedger(cfg: Config, handle: Handler, s: State, stream: StreamRef,
                                             batch: seq<RawMessage>, blocked: bool)
    requires Sound(cfg, handle)
    requires Ledger(cfg, s)
    ensures Ledger(cfg, RunStream(cfg, handle, s, stream, batch, blocked).state)
    decreases |batch|
  {
    if batch != [] {
      var (next, step) := Advance(cfg, handle, s, stream, batch[0], blocked);
      var mid := handle(Counted(s), batch[0]).0;
      EveryTurn(cfg, handle, s, stream, batch[0], blocked);
      VisitKeepsLedger(cfg, Counted(s), batch[0], mid, step);
      assert Ledger(cfg, next);
      if !step.Escaped? {
        StreamKeepsLedger(cfg, handle, next, stream, batch[1..], blocked || step.Pending?);
      }
    }
  }

  lemma {:induction false} BoxesKeepLedger(cfg: Config, handle: Handler, feed: Feed, s: State, boxes: seq<Mailbox>)
    requires Sound(cfg, handle)
    requires Ledger(cfg, s)
    ensures Ledger(cfg, RunBoxes(cfg, handle, feed, s, boxes).state)
    decreases |boxes|
  {
    if boxes != [] {
      var batch := Fetch(feed, cfg, boxes[0], s.cursors);
      var first := RunStream(cfg, handle, s, boxes[0].stream, batch, false);
      StreamKeepsLedger(cfg, handle, s, boxes[0].stream, batch, false);
      if !first.escaped {
        BoxesKeepLedger(cfg, handle, feed, first.state, boxes[1..]);
      }
    }
  }

  lemma RunKeepsLedger(cfg: Config, world: World, feed: Feed, s: State)
    requires Ledger(cfg, s)
    ensures Ledger(cfg, RunOnce(cfg, world, feed, s).state)
  {
    ProcessIsSound(cfg, world);
    assert Ledger(cfg, s.(report := EMPTY_REPORT));
    BoxesKeepLedger(cfg, Handling(cfg, world), feed, s.(report := EMPTY_REPORT), feed.boxes);
  }

  /** One `run_once`: what the outside will answer, and what there is to fetch. */
  datatype Call = Call(world: World, feed: Feed)

  /** What a call makes of the state. */
  type Next = (Call, State) -> State

  function Running(cfg: Config): Next {
    (call: Call, s: State) => RunOnce(cfg, call.world, call.feed, s).state
  }

  /** The states between the runs of any sequence of runs. */
  ghost predicate History(next: Next, calls: seq<Call>, states: seq<State>) {
    && |states| == |calls| + 1
    && forall i {:trigger calls[i]} | 0 <= i < |calls| :: states[i + 1] == next(calls[i], states[i])
  }

  /** Any runs over any feeds, failing in any way, escaping exceptions included, keep the
      ledger: emitted, dropped and dead-lettered keys are disjoint, are together exactly the
      done keys, and none is ever emitted twice. */
  lemma {:induction false} OneOutcomeEach(cfg: Config, calls: seq<Call>, states: seq<State>, i: nat)
    requires History(Running(cfg), calls, states) && Ledger(cfg, states[0]) && i < |states|
    ensures Ledger(cfg, states[i])
  {
    if i > 0 {
      OneOutcomeEach(cfg, calls, states, i - 1);
      RunKeepsLedger(cfg, calls[i - 1].world, calls[i - 1].feed, states[i - 1]);
    }
  }

  // ---- The emitter log when nothing fails ----

  function Members(keys: seq<string>): set<string> {
    set k | k in keys
  }

  /** The keys not in `seen`, each where it first occurs. */
  function FirstOccurrences(keys: seq<string>, seen: set<string>): seq<string> {
    if keys == [] then []
    else
      var front, last := keys[..|keys| - 1], keys[|keys| - 1];
      FirstOccurrences(front, seen) + if last in seen || last in front then [] else [last]
  }

  lemma {:induction false} FirstOccurrencesCons(key: string, keys: seq<string>, seen: set<string>)
    ensures FirstOccurrences([key] + keys, seen)
            == (if key in seen then [] else [key]) + FirstOccurrences(keys, seen + {key})
  {
    var whole := [key] + keys;
    if keys == [] {
      assert whole == [key];
      assert whole[..0] == [];
    } else {
      var front, last := keys[..|keys| - 1], keys[|keys| - 1];
      FirstOccurrencesCons(key, front, seen);
      assert whole[..|whole| - 1] == [key] + front && whole[|whole| - 1] == last;
    }
  }

  lemma {:induction false} FirstOccurrencesJoin(left: seq<string>, right: seq<string>, seen: set<string>)
    ensures FirstOccurrences(left + right, seen)
            == FirstOccurrences(left, seen) + FirstOccurrences(right, seen + Members(left))
  {
    if right == [] {
      assert left + right == left;
    } else {
      var front, last := right[..|right| - 1], right[|right| - 1];
      FirstOccurrencesJoin(left, front, seen);
      assert (left + right)[..|left + right| - 1] == left + front;
    }
  }

  function Keys(cfg: Config, batch: seq<RawMessage>): seq<string> {
    if batch == [] then [] else [KeyOf(cfg, batch[0])] + Keys(cfg, batch[1..])
  }

  /** The keys no claim can be won on. */
  function Taken(claims: Claims): set<string> {
    set k | k in claims && !Claimable(claims, k)
  }

  /** Every call succeeds, the size is within bounds and the filters let the mail through. */
  predicate Delivers(cfg: Config, v: Visit, msg: RawMessage) {
    var verdict := FilterChain.Run(v.first.verdicts);
    && v.size.Ok? && 0 < SizeOf(v.size.value, msg) <= cfg.maxMessageBytes
    && v.first.parse.Ok? && verdict.Ok? && !(cfg.dropFiltered && verdict.value.decision == FilterChain.Drop)
    && v.first.classify.Ok? && v.first.extract.Ok? && v.first.emit.Ok?
  }

  ghost predicate NothingFails(cfg: Config, world: World) {
    forall n, msg :: Delivers(cfg, world(n, msg), msg)
  }

  lemma DeliveringWork(cfg: Config, v: Visit, s: State, msg: RawMessage)
    requires Delivers(cfg, v, msg)
    ensures DoWork(cfg, v.first, v.now, s, msg).1 == Completed(Emitted)
  {
  }

  lemma DeliveringAttempt(cfg: Config, v: Visit, s: State, msg: RawMessage)
    requires Delivers(cfg, v, msg)
    ensures Attempt(cfg, v, s, msg).1 == Terminal(Emitted)
  {
    DeliveringWork(cfg, v, s, msg);
  }

  /** A handler that emits whatever it can claim. */
  ghost predicate Emitting(cfg: Config, handle: Handler) {
    forall s, msg :: handle(s, msg).1 == Terminal(if Claimable(s.claims, KeyOf(cfg, msg)) then Emitted else Duplicate)
  }

  lemma NothingFailsEmits(cfg: Config, world: World)
    requires NothingFails(cfg, world)
    ensures Emitting(cfg, Handling(cfg, world))
  {
    forall s, msg
      ensures Handling(cfg, world)(s, msg).1
          == Terminal(if Claimable(s.claims, KeyOf(cfg, msg)) then Emitted else Duplicate)
    {
      if Claimable(s.claims, KeyOf(cfg, msg)) {
        DeliveringAttempt(cfg, world(s.visits, msg), Entered(cfg, s, msg), msg);
        assert Process(cfg, world, s, msg) == Attempt(cfg, world(s.visits, msg), Entered(cfg, s, msg), msg);
      }
    }
  }

  lemma EmittingTurn(cfg: Config, handle: Handler, s: State, stream: StreamRef, msg: RawMessage, blocked: bool)
    requires Sound(cfg, handle) && Emitting(cfg, handle)
    ensures var (next, step) := Advance(cfg, handle, s, stream, msg, blocked);
            && step.Terminal?
            && LogKeys(next.emitted) == LogKeys(s.emitted) + FirstOccurrences([KeyOf(cfg, msg)], Taken(s.claims))
            && Taken(next.claims) == Taken(s.claims) + {KeyOf(cfg, msg)}
  {
    var key := KeyOf(cfg, msg);
    EveryTurn(cfg, handle, s, stream, msg, blocked);
    var (next, step) := Advance(cfg, handle, s, stream, msg, blocked);
    assert step == handle(Counted(s), msg).1;
    if Claimable(s.claims, key) {
      LogKeysAppend(s.emitted, next.emitted[|s.emitted|]);
    }
    TakenGrows(s.claims, next.claims, key);
    assert [key][..0] == [] && [key][0] == key;
  }

  lemma TakenGrows(before: Claims, after: Claims, key: string)
    requires SameElsewhere(before, after, key) && !Claimable(after, key)
    ensures Taken(after) == Taken(before) + {key}
  {
    forall k ensures k in Taken(after) <==> k in Taken(before) + {key} {
      assert k != key ==> (k in after <==> k in before);
    }
  }

  /** Two stretches of a log, one after the other. */
  lemma LogsJoin(log: seq<string>, log': seq<string>, log'': seq<string>, left: seq<string>, right: seq<string>,
                 seen: set<string>, seen': set<string>)
    requires log' == log + FirstOccurrences(left, seen)
    requires seen' == seen + Members(left)
    requires log'' == log' + FirstOccurrences(right, seen')
    ensures log'' == log + FirstOccurrences(left + right, seen)
    ensures seen' + Members(right) == seen + Members(left + right)
  {
    FirstOccurrencesJoin(left, right, seen);
  }

  lemma {:induction false} StreamEmitsFirstOccurrences(cfg: Config, handle: Handler, s: State, stream: StreamRef,
                                                       batch: seq<RawMessage>)
    requires Sound(cfg, handle) && Emitting(cfg, handle)
    ensures var run := RunStream(cfg, handle, s, stream, batch, false);
            && !run.escaped
            && LogKeys(run.state.emitted) == LogKeys(s.emitted) + FirstOccurrences(Keys(cfg, batch), Taken(s.claims))
            && Taken(run.state.claims) == Taken(s.claims) + Members(Keys(cfg, batch))
    decreases |batch|
  {
    if batch == [] {
      assert Members(Keys(cfg, batch)) == {};
    } else {
      var (next, step) := Advance(cfg, handle, s, stream, batch[0], false);
      var end := RunStream(cfg, handle, next, stream, batch[1..], false).state;
      var key, rest := KeyOf(cfg, batch[0]), Keys(cfg, batch[1..]);
      EmittingTurn(cfg, handle, s, stream, batch[0], false);
      StreamEmitsFirstOccurrences(cfg, handle, next, stream, batch[1..]);
      assert Members([key]) == {key};
      LogsJoin(LogKeys(s.emitted), LogKeys(next.emitted), LogKeys(end.emitted), [key], rest,
               Taken(s.claims), Taken(next.claims));
    }
  }

  /** The keys one run fetches, stream after stream. */
  function FetchedKeys(cfg: Config, feed: Feed, cursors: Cursors, boxes: seq<Mailbox>): seq<string> {
    if boxes == [] then []
    else Keys(cfg, Fetch(feed, cfg, boxes[0], cursors)) + FetchedKeys(cfg, feed, cursors, boxes[1..])
  }

  lemma {:induction false} OtherCursorsStay(cfg: Config, feed: Feed, before: Cursors, after: Cursors, b: nat, c: nat)
    requires WellFed(feed) && b < c <= |feed.boxes| && feed.boxes[b].messages != []
    requires forall slot | slot != SlotOf(cfg, feed.boxes[b].stream) :: Position(after, slot) == Position(before, slot)
    ensures FetchedKeys(cfg, feed, after, feed.boxes[c..]) == FetchedKeys(cfg, feed, before, feed.boxes[c..])
    decreases |feed.boxes| - c
  {
    if c < |feed.boxes| {
      assert feed.boxes[c..][0] == feed.boxes[c] && feed.boxes[c..][1..] == feed.boxes[c + 1..];
      assert feed.boxes[c].messages != [] ==>
          SlotOf(cfg, feed.boxes[c].stream) != SlotOf(cfg, feed.boxes[b].stream);
      OtherCursorsStay(cfg, feed, before, after, b, c + 1);
    }
  }

  lemma {:induction false} BoxesEmitFirstOccurrences(cfg: Config, handle: Handler, feed: Feed, s: State, b: nat)
    requires Sound(cfg, handle) && Emitting(cfg, handle) && WellFed(feed) && b <= |feed.boxes|
    ensures var run := RunBoxes(cfg, handle, feed, s, feed.boxes[b..]);
            !run.escaped && LogKeys(run.state.emitted)
              == LogKeys(s.emitted) + FirstOccurrences(FetchedKeys(cfg, feed, s.cursors, feed.boxes[b..]),
                                                       Taken(s.claims))
    decreases |feed.boxes| - b
  {
    if b < |feed.boxes| {
      var box, boxes := feed.boxes[b], feed.boxes[b..];
      assert boxes[0] == box && boxes[1..] == feed.boxes[b + 1..];
      var batch := Fetch(feed, cfg, box, s.cursors);
      var first := RunStream(cfg, handle, s, box.stream, batch, false);
      StreamEmitsFirstOccurrences(cfg, handle, s, box.stream, batch);
      BoxesEmitFirstOccurrences(cfg, handle, feed, first.state, b + 1);
      if box.messages != [] {
        Convergence.OthersStay(cfg, handle, s, box.stream, batch, false);
        OtherCursorsStay(cfg, feed, s.cursors, first.state.cursors, b, b + 1);
      }
      LogsJoin(LogKeys(s.emitted), LogKeys(first.state.emitted),
               LogKeys(RunBoxes(cfg, handle, feed, first.state, boxes[1..]).state.emitted),
               Keys(cfg, batch), FetchedKeys(cfg, feed, s.cursors, boxes[1..]), Taken(s.claims),
               Taken(first.state.claims));
    }
  }

  /** With no failures and no drops, a run emits exactly the keys it fetches that were not
      taken before, each once, in the order of first arrival. */
  lemma LogIsFirstOccurrences(cfg: Config, world: World, feed: Feed, s: State)
    requires NothingFails(cfg, world) && WellFed(feed)
    ensures var run := RunOnce(cfg, world, feed, s);
            !run.escaped && LogKeys(run.state.emitted)
              == LogKeys(s.emitted) + FirstOccurrences(FetchedKeys(cfg, feed, s.cursors, feed.boxes), Taken(s.claims))
  {
    ProcessIsSound(cfg, world);
    NothingFailsEmits(cfg, world);
    assert feed.boxes[0..] == feed.boxes;
    BoxesEmitFirstOccurrences(cfg, Handling(cfg, world), feed, s.(report := EMPTY_REPORT), 0);
  }
}
