/** Retries end: a bounded number of runs settles every message, whatever the work does. */
module Convergence {
  import opened Models
  import opened Observability
  import opened MemoryStores
  import opened Delivery
  import opened Visits
  import opened Runs
  import opened LowWater

  /** The calls whose exceptions would leave the pipeline all succeed; the work bodies may
      still answer anything. */
  ghost predicate Obliging(world: World) {
    forall n, msg :: Harmless(world(n, msg))
  }

  predicate Harmless(v: Visit) {
    v.size.Ok? && v.refresh.Ok? && v.dlqEmit.Ok? && v.dlqPut.Ok?
  }

  lemma AttemptStays(cfg: Config, v: Visit, s: State, msg: RawMessage)
    requires Harmless(v)
    ensures !Attempt(cfg, v, s, msg).1.Escaped?
  {
  }

  lemma NothingEscapes(cfg: Config, world: World, s: State, msg: RawMessage)
    requires Obliging(world)
    ensures !Process(cfg, world, s, msg).1.Escaped?
  {
    if Claimable(s.claims, KeyOf(cfg, msg)) {
      var v := world(s.visits, msg);
      AttemptStays(cfg, v, Entered(cfg, s, msg), msg);
      assert Process(cfg, world, s, msg) == Attempt(cfg, v, Entered(cfg, s, msg), msg);
    }
  }

  /** No exception leaves the handler. */
  ghost predicate Patient(handle: Handler) {
    forall s, msg :: !handle(s, msg).1.Escaped?
  }

  lemma ObligingIsPatient(cfg: Config, world: World)
    requires Obliging(world)
    ensures Patient(Handling(cfg, world))
  {
    forall s, msg ensures !Handling(cfg, world)(s, msg).1.Escaped? {
      NothingEscapes(cfg, world, s, msg);
    }
  }

  // ---- Attempts grow ----

  ghost predicate NoneHeld(cfg: Config, claims: Claims, batch: seq<RawMessage>) {
    forall i | 0 <= i < |batch| ::
      var key := KeyOf(cfg, batch[i]);
      key in claims && claims[key].claimed ==> claims[key].done
  }

  /** Done, or tried at least `r` times. */
  predicate Tried(claims: Claims, key: string, r: nat) {
    IsDone(claims, key) || r <= Attempts(claims, key)
  }

  ghost predicate AttemptsGrow(before: Claims, after: Claims) {
    forall key :: Attempts(before, key) <= Attempts(after, key)
  }

  /** The last chance: a message tried this often ends terminal on its next visit. */
  ghost predicate LastChance(cfg: Config, claims: Claims, batch: seq<RawMessage>) {
    forall i | 0 <= i < |batch| :: IsDone(claims, KeyOf(cfg, batch[i]))
      || cfg.maxAttempts <= Attempts(claims, KeyOf(cfg, batch[i])) + 1
  }

  ghost predicate Grown(before: Claims, after: Claims) {
    AttemptsGrow(before, after) && DoneStays(before, after)
  }

  ghost predicate BatchTried(cfg: Config, before: Claims, after: Claims, batch: seq<RawMessage>) {
    forall i | 0 <= i < |batch| :: Tried(after, KeyOf(cfg, batch[i]), Attempts(before, KeyOf(cfg, batch[i])) + 1)
  }

  lemma TurnTries(cfg: Config, before: Claims, after: Claims, batch: seq<RawMessage>, step: Step)
    requires batch != [] && NoneHeld(cfg, before, batch) && !step.Escaped?
    requires ClaimMoves(cfg, before, after, KeyOf(cfg, batch[0]), step)
    ensures Grown(before, after) && NoneHeld(cfg, after, batch[1..])
    ensures Tried(after, KeyOf(cfg, batch[0]), Attempts(before, KeyOf(cfg, batch[0])) + 1)
    ensures LastChance(cfg, before, batch) ==> !step.Pending? && LastChance(cfg, after, batch[1..])
  {
    assert forall i | 0 <= i < |batch| - 1 :: batch[1..][i] == batch[i + 1];
  }

  lemma TriesCompose(cfg: Config, first: Claims, second: Claims, third: Claims, batch: seq<RawMessage>)
    requires batch != [] && Grown(first, second) && Grown(second, third)
    requires Tried(second, KeyOf(cfg, batch[0]), Attempts(first, KeyOf(cfg, batch[0])) + 1)
    requires BatchTried(cfg, second, third, batch[1..])
    ensures Grown(first, third) && BatchTried(cfg, first, third, batch)
  {
    forall i | 0 <= i < |batch|
      ensures Tried(third, KeyOf(cfg, batch[i]), Attempts(first, KeyOf(cfg, batch[i])) + 1)
    {
      if i > 0 {
        assert batch[i] == batch[1..][i - 1];
      }
    }
  }

  lemma {:induction false} StreamTries(cfg: Config, handle: Handler, s: State, stream: StreamRef,
                                       batch: seq<RawMessage>, blocked: bool)
    requires Sound(cfg, handle)
    requires Patient(handle) && NoneHeld(cfg, s.claims, batch)
    ensures var run := RunStream(cfg, handle, s, stream, batch, blocked);
            && !run.escaped
            && Grown(s.claims, run.state.claims) && BatchTried(cfg, s.claims, run.state.claims, batch)
            && (LastChance(cfg, s.claims, batch) ==> Pending !in run.steps)
    decreases |batch|
  {
    if batch != [] {
      var (next, step) := Advance(cfg, handle, s, stream, batch[0], blocked);
      EveryTurn(cfg, handle, s, stream, batch[0], blocked);
      assert !handle(Counted(s), batch[0]).1.Escaped?;
      TurnTries(cfg, s.claims, next.claims, batch, step);
      StreamTries(cfg, handle, next, stream, batch[1..], blocked || step.Pending?);
      TriesCompose(cfg, s.claims, next.claims,
                   RunStream(cfg, handle, next, stream, batch[1..], blocked || step.Pending?).state.claims, batch);
    }
  }

  // ---- The cursor follows ----

  ghost predicate CursorReaches(cfg: Config, cursors: Cursors, box: Mailbox) {
    box.messages != [] ==> box.messages[|box.messages| - 1].cursor.order <= Position(cursors, SlotOf(cfg, box.stream))
  }

  ghost predicate CursorsWithin(cfg: Config, cursors: Cursors, feed: Feed) {
    forall b | 0 <= b < |feed.boxes| && feed.boxes[b].messages != [] ::
      var messages := feed.boxes[b].messages;
      Position(cursors, SlotOf(cfg, feed.boxes[b].stream)) <= messages[|messages| - 1].cursor.order
  }

  /** What one turn does to the cursors. */
  lemma TurnCursors(cfg: Config, handle: Handler, s: State, stream: StreamRef, msg: RawMessage, blocked: bool)
    requires Sound(cfg, handle)
    ensures var (next, step) := Advance(cfg, handle, s, stream, msg, blocked);
            next.cursors == if step.Terminal? && !blocked then Committed(s.cursors, SlotOf(cfg, stream), msg.cursor)
                            else s.cursors
  {
    EveryTurn(cfg, handle, s, stream, msg, blocked);
  }

  lemma CommitMoves(cursors: Cursors, slot: (string, string), cursor: Cursor, limit: int)
    ensures var after := Committed(cursors, slot, cursor);
            && NeverBack(cursors, after) && slot in after && cursor.order <= after[slot].order
            && (forall other | other != slot :: Position(after, other) == Position(cursors, other))
            && (cursor.order <= limit && Position(cursors, slot) <= limit ==> Position(after, slot) <= limit)
  {
  }

  lemma {:induction false} StreamReachesItsEnd(cfg: Config, handle: Handler, s: State, stream: StreamRef,
                                               batch: seq<RawMessage>)
    requires Sound(cfg, handle)
    requires var run := RunStream(cfg, handle, s, stream, batch, false); !run.escaped && Pending !in run.steps
    ensures var run := RunStream(cfg, handle, s, stream, batch, false);
            && NeverBack(s.cursors, run.state.cursors)
            && (batch != [] ==> SlotOf(cfg, stream) in run.state.cursors
                                && batch[|batch| - 1].cursor.order <= run.state.cursors[SlotOf(cfg, stream)].order)
    decreases |batch|
  {
    if batch != [] {
      var (next, step) := Advance(cfg, handle, s, stream, batch[0], false);
      TurnCursors(cfg, handle, s, stream, batch[0], false);
      CommitMoves(s.cursors, SlotOf(cfg, stream), batch[0].cursor, 0);
      var run := RunStream(cfg, handle, s, stream, batch, false);
      assert run.steps[0] == step;
      var rest := RunStream(cfg, handle, next, stream, batch[1..], false);
      assert run.steps == [step] + rest.steps;
      StreamReachesItsEnd(cfg, handle, next, stream, batch[1..]);
    }
  }

  /** Only this stream's cursor moves, and never past the last message of the batch. */
  lemma {:induction false} StreamStaysWithin(cfg: Config, handle: Handler, s: State, stream: StreamRef,
                                             batch: seq<RawMessage>, blocked: bool, limit: int)
    requires Sound(cfg, handle)
    requires forall m | m in batch :: m.cursor.order <= limit
    ensures var end := RunStream(cfg, handle, s, stream, batch, blocked).state.cursors;
            && (forall slot | slot != SlotOf(cfg, stream) :: Position(end, slot) == Position(s.cursors, slot))
            && (Position(s.cursors, SlotOf(cfg, stream)) <= limit ==> Position(end, SlotOf(cfg, stream)) <= limit)
    decreases |batch|
  {
    if batch != [] {
      var (next, step) := Advance(cfg, handle, s, stream, batch[0], blocked);
      TurnCursors(cfg, handle, s, stream, batch[0], blocked);
      CommitMoves(s.cursors, SlotOf(cfg, stream), batch[0].cursor, limit);
      assert batch[0] in batch && forall m | m in batch[1..] :: m in batch;
      if !step.Escaped? {
        StreamStaysWithin(cfg, handle, next, stream, batch[1..], blocked || step.Pending?, limit);
      }
    }
  }

  lemma OthersStay(cfg: Config, handle: Handler, s: State, stream: StreamRef, batch: seq<RawMessage>, blocked: bool)
    requires Sound(cfg, handle)
    ensures forall slot | slot != SlotOf(cfg, stream) ::
              Position(RunStream(cfg, handle, s, stream, batch, blocked).state.cursors, slot)
                  == Position(s.cursors, slot)
  {
    var limit := Highest(batch);
    StreamStaysWithin(cfg, handle, s, stream, batch, blocked, limit);
  }

  function Highest(batch: seq<RawMessage>): (limit: int)
    ensures forall m | m in batch :: m.cursor.order <= limit
  {
    if batch == [] then 0
    else
      var rest := Highest(batch[1..]);
      assert batch == [batch[0]] + batch[1..];
      if rest < batch[0].cursor.order then batch[0].cursor.order else rest
  }

  // ---- One run ----

  ghost predicate Ready(cfg: Config, s: State, feed: Feed) {
    Quiescent(cfg, s.claims, feed) && BehindIsDone(cfg, s, feed) && CursorsWithin(cfg, s.cursors, feed)
  }

  ghost predicate BoxTried(cfg: Config, claims: Claims, box: Mailbox, r: nat) {
    forall i | 0 <= i < |box.messages| :: Tried(claims, KeyOf(cfg, box.messages[i]), r)
  }

  /** The batch a box yields: what lies behind it is already done. */
  ghost predicate Start(cfg: Config, s: State, feed: Feed, b: nat, i: nat) {
    && b < |feed.boxes| && i <= |feed.boxes[b].messages|
    && (forall j | 0 <= j < i ::
          feed.boxes[b].messages[j].cursor.order <= Position(s.cursors, SlotOf(cfg, feed.boxes[b].stream)))
  }

  lemma BoxIsTried(cfg: Config, feed: Feed, s: State, after: Claims, b: nat, i: nat, r: nat)
    requires BehindIsDone(cfg, s, feed) && Start(cfg, s, feed, b, i) && BoxTried(cfg, s.claims, feed.boxes[b], r)
    requires Grown(s.claims, after) && BatchTried(cfg, s.claims, after, feed.boxes[b].messages[i..])
    ensures BoxTried(cfg, after, feed.boxes[b], r + 1)
  {
    var box := feed.boxes[b];
    forall j | 0 <= j < |box.messages| ensures Tried(after, KeyOf(cfg, box.messages[j]), r + 1) {
      if i <= j {
        assert box.messages[j] == box.messages[i..][j - i];
        assert Tried(s.claims, KeyOf(cfg, box.messages[j]), r);
      } else {
        assert IsDone(s.claims, KeyOf(cfg, box.messages[j]));
      }
    }
  }

  lemma BoxStaysWithin(cfg: Config, handle: Handler, feed: Feed, s: State, b: nat, i: nat)
    requires Sound(cfg, handle)
    requires WellFed(feed) && Start(cfg, s, feed, b, i) && CursorsWithin(cfg, s.cursors, feed)
    ensures CursorsWithin(cfg, RunStream(cfg, handle, s, feed.boxes[b].stream, feed.boxes[b].messages[i..],
                                         false).state.cursors, feed)
  {
    var box := feed.boxes[b];
    var batch := box.messages[i..];
    var end := RunStream(cfg, handle, s, box.stream, batch, false).state.cursors;
    if box.messages != [] {
      assert forall k | 0 <= k < |batch| :: batch[k] == box.messages[i + k];
      StreamStaysWithin(cfg, handle, s, box.stream, batch, false, box.messages[|box.messages| - 1].cursor.order);
      OthersStayWithin(cfg, feed, s.cursors, end, b);
    }
  }

  lemma OthersStayWithin(cfg: Config, feed: Feed, before: Cursors, after: Cursors, b: nat)
    requires WellFed(feed) && b < |feed.boxes| && feed.boxes[b].messages != [] && CursorsWithin(cfg, before, feed)
    requires var slot, messages := SlotOf(cfg, feed.boxes[b].stream), feed.boxes[b].messages;
             Position(after, slot) <= messages[|messages| - 1].cursor.order
             && forall other | other != slot :: Position(after, other) == Position(before, other)
    ensures CursorsWithin(cfg, after, feed)
  {
    forall c | 0 <= c < |feed.boxes| && feed.boxes[c].messages != []
      ensures var messages := feed.boxes[c].messages;
              Position(after, SlotOf(cfg, feed.boxes[c].stream)) <= messages[|messages| - 1].cursor.order
    {
      assert c != b ==> SlotOf(cfg, feed.boxes[c].stream) != SlotOf(cfg, feed.boxes[b].stream);
    }
  }

  lemma StartIsFront(cfg: Config, feed: Feed, s: State, b: nat, i: nat)
    requires Start(cfg, s, feed, b, i) && Quiescent(cfg, s.claims, feed) && BehindIsDone(cfg, s, feed)
    ensures Front(cfg, s, feed, b, i, false)
  {
  }

  lemma BatchOfBox(cfg: Config, feed: Feed, s: State, b: nat, i: nat, r: nat)
    requires Start(cfg, s, feed, b, i) && Quiescent(cfg, s.claims, feed) && BoxTried(cfg, s.claims, feed.boxes[b], r)
    ensures NoneHeld(cfg, s.claims, feed.boxes[b].messages[i..])
    ensures cfg.maxAttempts <= r + 1 ==> LastChance(cfg, s.claims, feed.boxes[b].messages[i..])
  {
    var batch := feed.boxes[b].messages[i..];
    assert forall k | 0 <= k < |batch| :: batch[k] == feed.boxes[b].messages[i + k];
  }

  lemma BatchEndsBox(cfg: Config, feed: Feed, s: State, after: Cursors, b: nat, i: nat)
    requires Start(cfg, s, feed, b, i) && NeverBack(s.cursors, after) && WellFed(feed)
    requires var batch := feed.boxes[b].messages[i..];
             batch != [] ==> batch[|batch| - 1].cursor.order <= Position(after, SlotOf(cfg, feed.boxes[b].stream))
    ensures CursorReaches(cfg, after, feed.boxes[b])
  {
  }

  lemma {:induction false} OneBoxTries(cfg: Config, handle: Handler, feed: Feed, s: State, b: nat, i: nat, r: nat)
    requires Sound(cfg, handle)
    requires WellFed(feed) && Patient(handle) && Start(cfg, s, feed, b, i)
    requires Quiescent(cfg, s.claims, feed) && BehindIsDone(cfg, s, feed) && BoxTried(cfg, s.claims, feed.boxes[b], r)
    ensures var run := RunStream(cfg, handle, s, feed.boxes[b].stream, feed.boxes[b].messages[i..], false);
            && !run.escaped && Grown(s.claims, run.state.claims) && Safe(cfg, s, run.state, feed)
            && Quiescent(cfg, run.state.claims, feed)
            && BoxTried(cfg, run.state.claims, feed.boxes[b], r + 1)
            && (cfg.maxAttempts <= r + 1 ==>
                  Pending !in run.steps && CursorReaches(cfg, run.state.cursors, feed.boxes[b]))
  {
    var box := feed.boxes[b];
    var batch := box.messages[i..];
    var run := RunStream(cfg, handle, s, box.stream, batch, false);
    StartIsFront(cfg, feed, s, b, i);
    BatchOfBox(cfg, feed, s, b, i, r);
    StreamTries(cfg, handle, s, box.stream, batch, false);
    StreamKeepsLowWater(cfg, handle, feed, s, b, i, false);
    BoxIsTried(cfg, feed, s, run.state.claims, b, i, r);
    if cfg.maxAttempts <= r + 1 {
      StreamReachesItsEnd(cfg, handle, s, box.stream, batch);
      BatchEndsBox(cfg, feed, s, run.state.cursors, b, i);
    }
  }

  lemma GrownKeepsTried(cfg: Config, before: Claims, after: Claims, box: Mailbox, r: nat)
    requires Grown(before, after) && BoxTried(cfg, before, box, r)
    ensures BoxTried(cfg, after, box, r)
  {
  }

  lemma ForwardKeepsReached(cfg: Config, before: Cursors, after: Cursors, box: Mailbox)
    requires NeverBack(before, after) && CursorReaches(cfg, before, box) && Increasing(box.messages)
    ensures CursorReaches(cfg, after, box)
  {
  }

  /** What one more run brings, box by box from `b` on: another attempt on everything not
      done and, on the last chance, no pending step and every cursor at its end. */
  lemma {:induction false} BoxesTry(cfg: Config, handle: Handler, feed: Feed, s: State, b: nat, r: nat)
    requires Sound(cfg, handle)
    requires WellFed(feed) && Patient(handle) && b <= |feed.boxes| && Ready(cfg, s, feed)
    requires forall c | b <= c < |feed.boxes| :: BoxTried(cfg, s.claims, feed.boxes[c], r)
    ensures var run := RunBoxes(cfg, handle, feed, s, feed.boxes[b..]);
            && !run.escaped && Grown(s.claims, run.state.claims) && NeverBack(s.cursors, run.state.cursors)
            && Ready(cfg, run.state, feed)
            && (forall c | b <= c < |feed.boxes| :: BoxTried(cfg, run.state.claims, feed.boxes[c], r + 1))
            && (cfg.maxAttempts <= r + 1 ==>
                  Pending !in run.steps
                  && forall c | b <= c < |feed.boxes| :: CursorReaches(cfg, run.state.cursors, feed.boxes[c]))
    decreases |feed.boxes| - b
  {
    if b < |feed.boxes| {
      var box, boxes := feed.boxes[b], feed.boxes[b..];
      assert boxes[0] == box && boxes[1..] == feed.boxes[b + 1..];
      var at := Position(s.cursors, SlotOf(cfg, box.stream));
      var i := if feed.resumes then Behind(box.messages, at) else 0;
      BehindIsAPrefix(box.messages, at);
      assert Fetch(feed, cfg, box, s.cursors) == box.messages[i..];
      var first := RunStream(cfg, handle, s, box.stream, box.messages[i..], false);
      OneBoxTries(cfg, handle, feed, s, b, i, r);
      BoxStaysWithin(cfg, handle, feed, s, b, i);
      forall c | b < c < |feed.boxes| ensures BoxTried(cfg, first.state.claims, feed.boxes[c], r) {
        GrownKeepsTried(cfg, s.claims, first.state.claims, feed.boxes[c], r);
      }
      BoxesTry(cfg, handle, feed, first.state, b + 1, r);
      var rest := RunBoxes(cfg, handle, feed, first.state, boxes[1..]);
      GrownKeepsTried(cfg, first.state.claims, rest.state.claims, box, r + 1);
      if cfg.maxAttempts <= r + 1 {
        ForwardKeepsReached(cfg, first.state.cursors, rest.state.cursors, box);
      }
    }
  }

  // ---- Runs in a row ----

  /** The n-th of `n` runs in a row over the same feed. */
  function RunMany(cfg: Config, handle: Handler, feed: Feed, s: State, n: nat): Run
    requires 1 <= n
  {
    if n == 1 then RunFeed(cfg, handle, feed, s)
    else RunFeed(cfg, handle, feed, RunMany(cfg, handle, feed, s, n - 1).state)
  }

  /** What `r` runs have brought: every message not done was tried `r` times and, once `r`
      reaches the attempt bound, the last run left nothing pending. */
  ghost predicate TriedBy(cfg: Config, feed: Feed, run: Run, r: nat) {
    && !run.escaped && Ready(cfg, run.state, feed)
    && (forall c | 0 <= c < |feed.boxes| :: BoxTried(cfg, run.state.claims, feed.boxes[c], r))
    && (cfg.maxAttempts <= r ==>
          Pending !in run.steps
          && forall c | 0 <= c < |feed.boxes| :: CursorReaches(cfg, run.state.cursors, feed.boxes[c]))
  }

  lemma OneRunTries(cfg: Config, handle: Handler, feed: Feed, s: State, r: nat)
    requires Sound(cfg, handle) && Patient(handle) && WellFed(feed) && Ready(cfg, s, feed)
    requires forall c | 0 <= c < |feed.boxes| :: BoxTried(cfg, s.claims, feed.boxes[c], r)
    ensures TriedBy(cfg, feed, RunFeed(cfg, handle, feed, s), r + 1)
  {
    var start := s.(report := EMPTY_REPORT);
    assert feed.boxes[0..] == feed.boxes;
    BoxesTry(cfg, handle, feed, start, 0, r);
  }

  lemma NextRunTries(cfg: Config, handle: Handler, feed: Feed, run: Run, r: nat)
    requires Sound(cfg, handle) && Patient(handle) && WellFed(feed) && TriedBy(cfg, feed, run, r)
    ensures TriedBy(cfg, feed, RunFeed(cfg, handle, feed, run.state), r + 1)
  {
    OneRunTries(cfg, handle, feed, run.state, r);
  }

  lemma {:induction false} ManyRunsTry(cfg: Config, handle: Handler, feed: Feed, s: State, n: nat)
    requires Sound(cfg, handle) && Patient(handle) && WellFed(feed) && Ready(cfg, s, feed) && 1 <= n
    ensures TriedBy(cfg, feed, RunMany(cfg, handle, feed, s, n), n)
  {
    if n == 1 {
      OneRunTries(cfg, handle, feed, s, 0);
    } else {
      ManyRunsTry(cfg, handle, feed, s, n - 1);
      NextRunTries(cfg, handle, feed, RunMany(cfg, handle, feed, s, n - 1), n - 1);
    }
  }

  lemma {:induction false} StreamSettles(cfg: Config, handle: Handler, s: State, stream: StreamRef,
                                         batch: seq<RawMessage>, blocked: bool)
    requires Sound(cfg, handle)
    requires NoneHeld(cfg, s.claims, batch)
    requires var run := RunStream(cfg, handle, s, stream, batch, blocked); !run.escaped && Pending !in run.steps
    ensures var run := RunStream(cfg, handle, s, stream, batch, blocked);
            DoneStays(s.claims, run.state.claims) && forall m | m in batch :: IsDone(run.state.claims, KeyOf(cfg, m))
    decreases |batch|
  {
    if batch != [] {
      var (next, step) := Advance(cfg, handle, s, stream, batch[0], blocked);
      EveryTurn(cfg, handle, s, stream, batch[0], blocked);
      var rest := RunStream(cfg, handle, next, stream, batch[1..], blocked || step.Pending?);
      var run := RunStream(cfg, handle, s, stream, batch, blocked);
      assert run.steps == [step] + rest.steps;
      assert step in run.steps && Pending !in rest.steps;
      assert NoneHeld(cfg, next.claims, batch[1..]) by {
        assert forall i | 0 <= i < |batch| - 1 :: batch[1..][i] == batch[i + 1];
      }
      StreamSettles(cfg, handle, next, stream, batch[1..], blocked || step.Pending?);
      assert batch == [batch[0]] + batch[1..];
    }
  }

  lemma FeedConverges(cfg: Config, handle: Handler, feed: Feed, s: State, n: nat)
    requires Sound(cfg, handle)
    requires WellFed(feed) && Patient(handle) && Ready(cfg, s, feed)
    requires 1 <= n && cfg.maxAttempts <= n
    ensures var run := RunMany(cfg, handle, feed, s, n);
            && !run.escaped && run.state.report.AllTerminal()
            && (forall b, i | 0 <= b < |feed.boxes| && 0 <= i < |feed.boxes[b].messages| ::
                  IsDone(run.state.claims, KeyOf(cfg, feed.boxes[b].messages[i])))
            && (forall b | 0 <= b < |feed.boxes| && feed.boxes[b].messages != [] ::
                  Position(run.state.cursors, SlotOf(cfg, feed.boxes[b].stream))
                  == feed.boxes[b].messages[|feed.boxes[b].messages| - 1].cursor.order)
  {
    ManyRunsTry(cfg, handle, feed, s, n);
    var run := RunMany(cfg, handle, feed, s, n);
    var last := if n == 1 then s else RunMany(cfg, handle, feed, s, n - 1).state;
    assert run == RunFeed(cfg, handle, feed, last);
    FeedAccounting(cfg, handle, feed, last);
    forall b, i | 0 <= b < |feed.boxes| && 0 <= i < |feed.boxes[b].messages|
      ensures IsDone(run.state.claims, KeyOf(cfg, feed.boxes[b].messages[i]))
    {
      assert CursorReaches(cfg, run.state.cursors, feed.boxes[b]);
      assert BehindIsDone(cfg, run.state, feed);
    }
  }

  /** After `max(1, maxAttempts)` runs, or more, every message of the feed is done, the last
      report is all terminal and every stream's cursor stands at its last message: the
      attempts on record survive each release and count the runs down. */
  lemma RetriesConverge(cfg: Config, world: World, feed: Feed, s: State, n: nat)
    requires WellFed(feed) && Obliging(world) && Ready(cfg, s, feed)
    requires 1 <= n && cfg.maxAttempts <= n
    ensures var run := RunMany(cfg, Handling(cfg, world), feed, s, n);
            && !run.escaped && run.state.report.AllTerminal()
            && (forall b, i | 0 <= b < |feed.boxes| && 0 <= i < |feed.boxes[b].messages| ::
                  IsDone(run.state.claims, KeyOf(cfg, feed.boxes[b].messages[i])))
            && (forall b | 0 <= b < |feed.boxes| && feed.boxes[b].messages != [] ::
                  Position(run.state.cursors, SlotOf(cfg, feed.boxes[b].stream))
                  == feed.boxes[b].messages[|feed.boxes[b].messages| - 1].cursor.order)
  {
    ProcessIsSound(cfg, world);
    ObligingIsPatient(cfg, world);
    FeedConverges(cfg, Handling(cfg, world), feed, s, n);
  }
}
