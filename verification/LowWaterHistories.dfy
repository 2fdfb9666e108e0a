/** The low-water mark over any number of runs, and while mail keeps arriving. */
module LowWaterHistories {
  import opened Models
  import opened Observability
  import opened MemoryStores
  import opened Delivery
  import opened Visits
  import opened Runs
  import opened LowWater
  import opened Outcomes
  import opened Convergence
  import opened GraphRuns

  /** No exception leaves the run this call makes. */
  ghost predicate Stays(cfg: Config, call: Call, s: State) {
    !RunOnce(cfg, call.world, call.feed, s).escaped
  }

  /** Nothing left the first `i` runs of the history by exception. */
  ghost predicate NoneEscaped(cfg: Config, calls: seq<Call>, states: seq<State>, i: nat) {
    i <= |calls| < |states| && forall k {:trigger calls[k]} | 0 <= k < i :: Stays(cfg, calls[k], states[k])
  }

  /** A way to answer calls that keeps the mark of one feed. */
  ghost predicate Keeps(cfg: Config, feed: Feed, next: Next) {
    forall call: Call, first, s {:trigger next(call, s), Safe(cfg, first, s, feed)}
      | call.feed == feed && Stays(cfg, call, s) && Safe(cfg, first, s, feed) && Quiescent(cfg, s.claims, feed) ::
      Safe(cfg, first, next(call, s), feed) && Quiescent(cfg, next(call, s).claims, feed)
  }

  lemma RunningKeeps(cfg: Config, feed: Feed)
    requires WellFed(feed)
    ensures Keeps(cfg, feed, Running(cfg))
  {
    forall call: Call, first, s
      | call.feed == feed && Stays(cfg, call, s) && Safe(cfg, first, s, feed) && Quiescent(cfg, s.claims, feed)
      ensures Safe(cfg, first, Running(cfg)(call, s), feed) && Quiescent(cfg, Running(cfg)(call, s).claims, feed)
    {
      NextIsSafe(cfg, feed, call.world, first, s);
    }
  }

  lemma {:induction false} KeptOn(cfg: Config, feed: Feed, next: Next, calls: seq<Call>, states: seq<State>, i: nat)
    requires Keeps(cfg, feed, next) && History(next, calls, states) && forall call | call in calls :: call.feed == feed
    requires Quiescent(cfg, states[0].claims, feed) && BehindIsDone(cfg, states[0], feed)
    requires NoneEscaped(cfg, calls, states, i)
    ensures Safe(cfg, states[0], states[i], feed) && Quiescent(cfg, states[i].claims, feed)
  {
    if i > 0 {
      KeptOn(cfg, feed, next, calls, states, i - 1);
      assert calls[i - 1] in calls && Stays(cfg, calls[i - 1], states[i - 1]);
      assert states[i] == next(calls[i - 1], states[i - 1]);
    }
  }

  /** Over a history of runs of one feed, from quiescent stores and while no run escaped: all
      messages at or behind a cursor are done, no cursor has moved back and nothing done is
      undone, before every run. */
  lemma HistoryKeepsLowWater(cfg: Config, feed: Feed, calls: seq<Call>, states: seq<State>, i: nat)
    requires WellFed(feed) && History(Running(cfg), calls, states) && forall call | call in calls :: call.feed == feed
    requires Quiescent(cfg, states[0].claims, feed) && BehindIsDone(cfg, states[0], feed)
    requires NoneEscaped(cfg, calls, states, i)
    ensures Safe(cfg, states[0], states[i], feed) && Quiescent(cfg, states[i].claims, feed)
  {
    RunningKeeps(cfg, feed);
    KeptOn(cfg, feed, Running(cfg), calls, states, i);
  }

  lemma NextIsSafe(cfg: Config, feed: Feed, world: World, first: State, s: State)
    requires WellFed(feed) && Safe(cfg, first, s, feed) && Quiescent(cfg, s.claims, feed)
    ensures var run := RunOnce(cfg, world, feed, s);
            && (forall t | t in RunTrail(cfg, world, feed, s) :: Safe(cfg, first, t, feed))
            && Safe(cfg, first, run.state, feed) && (!run.escaped ==> Quiescent(cfg, run.state.claims, feed))
  {
    LowWaterMark(cfg, world, feed, s);
    forall t | t in RunTrail(cfg, world, feed, s) ensures Safe(cfg, first, t, feed) {
      SafeTransitive(cfg, first, s, t, feed);
    }
    SafeTransitive(cfg, first, s, RunOnce(cfg, world, feed, s).state, feed);
  }

  /** And so it is in every state of the run that follows, whether or not that one escapes. */
  lemma {:induction false} HistoryTrailsKeepLowWater(cfg: Config, feed: Feed, calls: seq<Call>, states: seq<State>,
                                                     i: nat)
    requires WellFed(feed) && History(Running(cfg), calls, states) && forall call | call in calls :: call.feed == feed
    requires Quiescent(cfg, states[0].claims, feed) && BehindIsDone(cfg, states[0], feed)
    requires i < |calls| && NoneEscaped(cfg, calls, states, i)
    ensures forall t | t in RunTrail(cfg, calls[i].world, feed, states[i]) :: Safe(cfg, states[0], t, feed)
  {
    HistoryKeepsLowWater(cfg, feed, calls, states, i);
    NextIsSafe(cfg, feed, calls[i].world, states[0], states[i]);
  }

  // ---- Mail that arrives between runs ----

  /** Of all the mail that ever arrives, `feed` is what has arrived in each box so far. */
  ghost predicate Arrived(feed: Feed, all: Feed) {
    |feed.boxes| == |all.boxes| && forall b | 0 <= b < |feed.boxes| ::
      feed.boxes[b].stream == all.boxes[b].stream && feed.boxes[b].messages <= all.boxes[b].messages
  }

  function LastOrder(messages: seq<RawMessage>): int {
    if messages == [] then 0 else messages[|messages| - 1].cursor.order
  }

  /** No cursor of a box that ever holds mail is past what has arrived there. */
  ghost predicate Within(cfg: Config, cursors: Cursors, feed: Feed, all: Feed) {
    forall b | 0 <= b < |feed.boxes| && b < |all.boxes| && all.boxes[b].messages != [] ::
      Position(cursors, SlotOf(cfg, all.boxes[b].stream)) <= LastOrder(feed.boxes[b].messages)
  }

  lemma {:induction false} BoxStaysArrived(cfg: Config, handle: Handler, feed: Feed, all: Feed, s: State, b: nat,
                                           batch: seq<RawMessage>)
    requires Sound(cfg, handle) && WellFed(all) && Arrived(feed, all) && b < |feed.boxes|
    requires Within(cfg, s.cursors, feed, all) && forall msg | msg in batch :: msg in feed.boxes[b].messages
    ensures Within(cfg, RunStream(cfg, handle, s, feed.boxes[b].stream, batch, false).state.cursors, feed, all)
  {
    var messages, limit := feed.boxes[b].messages, LastOrder(feed.boxes[b].messages);
    var end := RunStream(cfg, handle, s, feed.boxes[b].stream, batch, false).state.cursors;
    forall msg | msg in batch ensures msg.cursor.order <= limit && all.boxes[b].messages != [] {
      var k :| 0 <= k < |messages| && messages[k] == msg;
      assert messages[k] == all.boxes[b].messages[k];
      assert messages[|messages| - 1] == all.boxes[b].messages[|messages| - 1];
    }
    StreamStaysWithin(cfg, handle, s, feed.boxes[b].stream, batch, false, limit);
    forall c | 0 <= c < |feed.boxes| && all.boxes[c].messages != []
      ensures Position(end, SlotOf(cfg, all.boxes[c].stream)) <= LastOrder(feed.boxes[c].messages)
    {
      if batch == [] {
        assert end == s.cursors;
      } else if c != b {
        assert batch[0] in batch && all.boxes[b].messages != [];
        assert SlotOf(cfg, all.boxes[c].stream) != SlotOf(cfg, all.boxes[b].stream);
      }
    }
  }

  lemma FetchedHasArrived(cfg: Config, feed: Feed, box: Mailbox, cursors: Cursors)
    ensures forall msg | msg in Fetch(feed, cfg, box, cursors) :: msg in box.messages
  {
  }

  lemma {:induction false} BoxesStayArrived(cfg: Config, handle: Handler, feed: Feed, all: Feed, s: State, b: nat)
    requires Sound(cfg, handle) && WellFed(all) && Arrived(feed, all) && b <= |feed.boxes|
    requires Within(cfg, s.cursors, feed, all)
    ensures var run := RunBoxes(cfg, handle, feed, s, feed.boxes[b..]);
            Within(cfg, run.state.cursors, feed, all) && (Quiet(s.claims) && !run.escaped ==> Quiet(run.state.claims))
    decreases |feed.boxes| - b
  {
    if b < |feed.boxes| {
      var box, boxes := feed.boxes[b], feed.boxes[b..];
      assert boxes[0] == box && boxes[1..] == feed.boxes[b + 1..];
      var batch := Fetch(feed, cfg, box, s.cursors);
      var first := RunStream(cfg, handle, s, box.stream, batch, false);
      FetchedHasArrived(cfg, feed, box, s.cursors);
      BoxStaysArrived(cfg, handle, feed, all, s, b, batch);
      StreamKeepsQuiet(cfg, handle, s, box.stream, batch, false);
      if !first.escaped {
        BoxesStayArrived(cfg, handle, feed, all, first.state, b + 1);
      }
    }
  }

  /** Mail that has not arrived is not behind a cursor. */
  lemma ArrivalsAreAhead(cfg: Config, feed: Feed, all: Feed, s: State)
    requires WellFed(all) && Arrived(feed, all) && Within(cfg, s.cursors, feed, all)
    ensures BehindIsDone(cfg, s, all) <==> BehindIsDone(cfg, s, feed)
  {
    if BehindIsDone(cfg, s, feed) {
      forall b, i | 0 <= b < |all.boxes| && 0 <= i < |all.boxes[b].messages|
        && all.boxes[b].messages[i].cursor.order <= Position(s.cursors, SlotOf(cfg, all.boxes[b].stream))
        ensures IsDone(s.claims, KeyOf(cfg, all.boxes[b].messages[i]))
      {
        var arrived := feed.boxes[b].messages;
        assert 0 < all.boxes[b].messages[i].cursor.order;
        assert arrived != [] ==> arrived[|arrived| - 1] == all.boxes[b].messages[|arrived| - 1];
        assert i < |arrived| && arrived[i] == all.boxes[b].messages[i];
      }
    } else {
      var b, i :| 0 <= b < |feed.boxes| && 0 <= i < |feed.boxes[b].messages|
        && feed.boxes[b].messages[i].cursor.order <= Position(s.cursors, SlotOf(cfg, feed.boxes[b].stream))
        && !IsDone(s.claims, KeyOf(cfg, feed.boxes[b].messages[i]));
      assert all.boxes[b].messages[i] == feed.boxes[b].messages[i];
    }
  }

  /** The mark before a run over what has arrived, relative to all that ever will. */
  ghost predicate Marked(cfg: Config, first: State, s: State, feed: Feed, all: Feed) {
    && Quiet(s.claims) && Within(cfg, s.cursors, feed, all) && Safe(cfg, first, s, all)
  }

  lemma {:induction false} RunKeepsMarked(cfg: Config, world: World, first: State, s: State, feed: Feed, all: Feed)
    requires WellFed(all) && Arrived(feed, all) && Marked(cfg, first, s, feed, all)
    requires !RunOnce(cfg, world, feed, s).escaped
    ensures Marked(cfg, first, RunOnce(cfg, world, feed, s).state, feed, all)
  {
    var start, end := s.(report := EMPTY_REPORT), RunOnce(cfg, world, feed, s).state;
    ArrivedIsWellFed(feed, all);
    ArrivalsAreAhead(cfg, feed, all, s);
    ProcessIsSound(cfg, world);
    assert feed.boxes[0..] == feed.boxes;
    BoxesStayArrived(cfg, Handling(cfg, world), feed, all, start, 0);
    LowWaterMark(cfg, world, feed, s);
    ArrivalsAreAhead(cfg, feed, all, end);
    SafeTransitive(cfg, first, s, end, all);
  }

  lemma ArrivedIsWellFed(feed: Feed, all: Feed)
    requires WellFed(all) && Arrived(feed, all)
    ensures WellFed(feed)
  {
    forall b | 0 <= b < |feed.boxes| ensures Increasing(feed.boxes[b].messages) {
      var arrived := feed.boxes[b].messages;
      assert forall i | 0 <= i < |arrived| :: arrived[i] == all.boxes[b].messages[i];
    }
  }

  lemma MoreArrives(cfg: Config, first: State, s: State, feed: Feed, later: Feed, all: Feed)
    requires WellFed(all) && Arrived(feed, all) && Arrived(later, all) && Arrived(feed, later)
    requires Marked(cfg, first, s, feed, all)
    ensures Marked(cfg, first, s, later, all)
  {
    forall b | 0 <= b < |feed.boxes| && all.boxes[b].messages != []
      ensures LastOrder(feed.boxes[b].messages) <= LastOrder(later.boxes[b].messages)
    {
      var few, more := feed.boxes[b].messages, later.boxes[b].messages;
      assert few != [] ==> few[|few| - 1] == all.boxes[b].messages[|few| - 1];
      assert more != [] ==> more[|more| - 1] == all.boxes[b].messages[|more| - 1];
    }
  }

  /** Each call's feed is what has arrived by then, and it only grows. */
  ghost predicate Growing(calls: seq<Call>, all: Feed) {
    && (forall k | 0 <= k < |calls| :: Arrived(calls[k].feed, all))
    && (forall k | 0 < k < |calls| :: Arrived(calls[k - 1].feed, calls[k].feed))
  }

  /** A way to answer calls that keeps the mark over growing feeds. */
  ghost predicate KeepsMarked(cfg: Config, all: Feed, next: Next) {
    forall call: Call, first, s {:trigger next(call, s), Marked(cfg, first, s, call.feed, all)}
      | Arrived(call.feed, all) && Stays(cfg, call, s) && Marked(cfg, first, s, call.feed, all) ::
      Marked(cfg, first, next(call, s), call.feed, all)
  }

  lemma {:induction false} GrowingKeeps(cfg: Config, all: Feed, next: Next, calls: seq<Call>, states: seq<State>,
                                        i: nat)
    requires WellFed(all) && KeepsMarked(cfg, all, next) && History(next, calls, states) && Growing(calls, all)
    requires i < |calls| && Marked(cfg, states[0], states[0], calls[0].feed, all) && NoneEscaped(cfg, calls, states, i)
    ensures Marked(cfg, states[0], states[i], calls[i].feed, all)
  {
    if i > 0 {
      GrowingKeeps(cfg, all, next, calls, states, i - 1);
      assert Arrived(calls[i - 1].feed, all) && Stays(cfg, calls[i - 1], states[i - 1]);
      assert states[i] == next(calls[i - 1], states[i - 1]);
      assert Arrived(calls[i - 1].feed, calls[i].feed);
      MoreArrives(cfg, states[0], states[i], calls[i - 1].feed, calls[i].feed, all);
    }
  }

  /** While mail keeps arriving between the runs of a history none of which escapes, the mark
      holds before every run for all mail, arrived or not. */
  lemma {:induction false} ArrivalsKeepLowWater(cfg: Config, all: Feed, calls: seq<Call>, states: seq<State>, i: nat)
    requires WellFed(all) && History(Running(cfg), calls, states) && Growing(calls, all) && i < |calls|
    requires Quiet(states[0].claims) && Within(cfg, states[0].cursors, calls[0].feed, all)
    requires BehindIsDone(cfg, states[0], all) && NoneEscaped(cfg, calls, states, i)
    ensures Safe(cfg, states[0], states[i], all) && Quiet(states[i].claims)
  {
    forall call: Call, first, s
      | Arrived(call.feed, all) && Stays(cfg, call, s) && Marked(cfg, first, s, call.feed, all)
      ensures Marked(cfg, first, Running(cfg)(call, s), call.feed, all)
    {
      RunKeepsMarked(cfg, call.world, first, s, call.feed, all);
    }
    GrowingKeeps(cfg, all, Running(cfg), calls, states, i);
  }
}
