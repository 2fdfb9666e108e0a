/** What a claim left behind by a crash costs: exactly when the low-water mark can fail. */
module HeldClaims {
  import opened Models
  import opened Observability
  import opened MemoryStores
  import opened Delivery
  import opened Visits
  import opened Runs
  import opened LowWater
  import opened Convergence
  import opened Scenarios

  /** A day on which everything works. */
  ghost predicate SmoothDay(world: World) {
    forall n, msg :: world(n, msg) == SMOOTH_VISIT
  }

  /** Every step is terminal. */
  ghost predicate Settling(handle: Handler) {
    forall s, msg :: handle(s, msg).1.Terminal?
  }

  lemma SmoothDaySettles(cfg: Config, world: World)
    requires SmoothDay(world)
    ensures Settling(Handling(cfg, world))
  {
    forall s, msg ensures Handling(cfg, world)(s, msg).1.Terminal? {
      if Claimable(s.claims, KeyOf(cfg, msg)) {
        SmoothAttempt(cfg, Entered(cfg, s, msg), msg);
        assert Process(cfg, world, s, msg) == Attempt(cfg, SMOOTH_VISIT, Entered(cfg, s, msg), msg);
      }
    }
  }

  /** Held claims outlive a smooth stream, whose cursor reaches its end all the same. */
  lemma {:induction false} SmoothStream(cfg: Config, handle: Handler, s: State, stream: StreamRef,
                                        batch: seq<RawMessage>)
    requires Sound(cfg, handle)
    requires Settling(handle)
    ensures var run := RunStream(cfg, handle, s, stream, batch, false);
            !run.escaped && Pending !in run.steps && forall key | Held(s.claims, key) :: Held(run.state.claims, key)
    decreases |batch|
  {
    if batch != [] {
      var (next, step) := Advance(cfg, handle, s, stream, batch[0], false);
      EveryTurn(cfg, handle, s, stream, batch[0], false);
      SmoothStream(cfg, handle, next, stream, batch[1..]);
    }
  }

  lemma {:induction false} SmoothBoxes(cfg: Config, handle: Handler, feed: Feed, s: State, b: nat)
    requires Sound(cfg, handle)
    requires Settling(handle) && WellFed(feed) && b <= |feed.boxes|
    ensures var run := RunBoxes(cfg, handle, feed, s, feed.boxes[b..]);
            && NeverBack(s.cursors, run.state.cursors)
            && (forall key | Held(s.claims, key) :: Held(run.state.claims, key))
            && forall c | b <= c < |feed.boxes| :: CursorReaches(cfg, run.state.cursors, feed.boxes[c])
    decreases |feed.boxes| - b
  {
    if b < |feed.boxes| {
      var box, boxes := feed.boxes[b], feed.boxes[b..];
      assert boxes[0] == box && boxes[1..] == feed.boxes[b + 1..];
      var at := Position(s.cursors, SlotOf(cfg, box.stream));
      var i := if feed.resumes then Behind(box.messages, at) else 0;
      BehindIsAPrefix(box.messages, at);
      assert Fetch(feed, cfg, box, s.cursors) == box.messages[i..];
      var first := RunStream(cfg, handle, s, box.stream, box.messages[i..], false);
      SmoothStream(cfg, handle, s, box.stream, box.messages[i..]);
      StreamReachesItsEnd(cfg, handle, s, box.stream, box.messages[i..]);
      BatchEndsBox(cfg, feed, s, first.state.cursors, b, i);
      SmoothBoxes(cfg, handle, feed, first.state, b + 1);
      ForwardKeepsReached(cfg, first.state.cursors,
                          RunBoxes(cfg, handle, feed, first.state, boxes[1..]).state.cursors, box);
    }
  }

  /** A held message is passed by the cursor on the first smooth run, undone. */
  lemma HeldIsPassed(cfg: Config, world: World, feed: Feed, s: State)
    requires SmoothDay(world) && WellFed(feed) && !Quiescent(cfg, s.claims, feed)
    ensures !BehindIsDone(cfg, RunOnce(cfg, world, feed, s).state, feed)
  {
    var b, i :| 0 <= b < |feed.boxes| && 0 <= i < |feed.boxes[b].messages|
                && Held(s.claims, KeyOf(cfg, feed.boxes[b].messages[i]));
    var end := RunOnce(cfg, world, feed, s).state;
    assert feed.boxes[0..] == feed.boxes;
    ProcessIsSound(cfg, world);
    SmoothDaySettles(cfg, world);
    SmoothBoxes(cfg, Handling(cfg, world), feed, s.(report := EMPTY_REPORT), 0);
    assert CursorReaches(cfg, end.cursors, feed.boxes[b]);
    assert feed.boxes[b].messages[i].cursor.order <= feed.boxes[b].messages[|feed.boxes[b].messages| - 1].cursor.order;
  }

  /** The low-water mark survives the next run whatever happens in it if and only if no
      message of the feed is held when the run starts. */
  lemma {:induction false} LowWaterExactly(cfg: Config, feed: Feed, s: State)
    requires WellFed(feed) && BehindIsDone(cfg, s, feed)
    ensures Quiescent(cfg, s.claims, feed)
            <==> forall world: World :: BehindIsDone(cfg, RunOnce(cfg, world, feed, s).state, feed)
  {
    if Quiescent(cfg, s.claims, feed) {
      forall world: World ensures BehindIsDone(cfg, RunOnce(cfg, world, feed, s).state, feed) {
        LowWaterMark(cfg, world, feed, s);
      }
    } else {
      var world: World := (n, msg) => SMOOTH_VISIT;
      HeldIsPassed(cfg, world, feed, s);
    }
  }

  /** So an exception that leaves a run, a failing dead-letter sink for one, costs a
      message: with the in-memory store the next smooth run moves the cursor past it. */
  lemma {:induction false} EscapeIsPassed(cfg: Config, world: World, later: World, feed: Feed, s: State)
    requires WellFed(feed) && Quiescent(cfg, s.claims, feed) && BehindIsDone(cfg, s, feed)
    requires SmoothDay(later)
    ensures var run := RunOnce(cfg, world, feed, s);
            run.escaped <==> !BehindIsDone(cfg, RunOnce(cfg, later, feed, run.state).state, feed)
  {
    LowWaterMark(cfg, world, feed, s);
    var run := RunOnce(cfg, world, feed, s);
    if run.escaped {
      HeldIsPassed(cfg, later, feed, run.state);
    } else {
      LowWaterMark(cfg, later, feed, run.state);
    }
  }
}
