/** The low-water mark: a committed cursor never passes a message that is not done. */
module LowWater {
  import opened Models
  import opened Observability
  import opened MemoryStores
  import opened Delivery
  import opened Visits
  import opened VisitTrails
  import opened Runs

  // ---- Mailboxes ----

  /** Cursor orders start above zero and grow with every message. */
  ghost predicate Increasing(messages: seq<RawMessage>) {
    && (forall i | 0 <= i < |messages| :: 0 < messages[i].cursor.order)
    && (forall i, j | 0 <= i < j < |messages| :: messages[i].cursor.order < messages[j].cursor.order)
  }

  /** A feed a run can be judged on: each box in cursor order, and no cursor slot shared by
      two boxes that hold messages. */
  ghost predicate WellFed(feed: Feed) {
    && (forall i | 0 <= i < |feed.boxes| :: Increasing(feed.boxes[i].messages))
    && (forall i, j | 0 <= i < j < |feed.boxes| && feed.boxes[i].messages != [] && feed.boxes[j].messages != [] ::
          feed.boxes[i].stream.Key() != feed.boxes[j].stream.Key())
  }

  lemma {:induction false} BehindIsAPrefix(messages: seq<RawMessage>, order: int)
    requires Increasing(messages)
    ensures forall i | 0 <= i < |messages| :: i < Behind(messages, order) <==> messages[i].cursor.order <= order
  {
    if messages != [] && messages[0].cursor.order <= order {
      assert forall i | 0 <= i < |messages| - 1 :: messages[1..][i] == messages[i + 1];
      BehindIsAPrefix(messages[1..], order);
      forall i | 0 <= i < |messages|
        ensures i < Behind(messages, order) <==> messages[i].cursor.order <= order
      {
        assert i > 0 ==> messages[i] == messages[1..][i - 1];
      }
    }
  }

  // ---- The invariant ----

  /** No message of the feed is claimed without being done: nobody holds one. */
  ghost predicate Quiescent(cfg: Config, claims: Claims, feed: Feed) {
    forall b, i | 0 <= b < |feed.boxes| && 0 <= i < |feed.boxes[b].messages| ::
      var key := KeyOf(cfg, feed.boxes[b].messages[i]);
      key in claims && claims[key].claimed ==> claims[key].done
  }

  /** Every message at or behind its stream's cursor is done. */
  ghost predicate BehindIsDone(cfg: Config, s: State, feed: Feed) {
    forall b, i | 0 <= b < |feed.boxes| && 0 <= i < |feed.boxes[b].messages| ::
      feed.boxes[b].messages[i].cursor.order <= Position(s.cursors, SlotOf(cfg, feed.boxes[b].stream)) ==>
      IsDone(s.claims, KeyOf(cfg, feed.boxes[b].messages[i]))
  }

  ghost predicate NeverBack(before: Cursors, after: Cursors) {
    forall slot | slot in before :: slot in after && before[slot].order <= after[slot].order
  }

  ghost predicate DoneStays(before: Claims, after: Claims) {
    forall key :: IsDone(before, key) ==> IsDone(after, key)
  }

  /** Inside box `b`, in front of its `i`-th message: nothing is held, and everything before
      is done unless an earlier message of the batch is pending. */
  ghost predicate Front(cfg: Config, s: State, feed: Feed, b: nat, i: nat, blocked: bool) {
    && b < |feed.boxes| && i <= |feed.boxes[b].messages|
    && Quiescent(cfg, s.claims, feed) && BehindIsDone(cfg, s, feed)
    && (!blocked ==> forall j | 0 <= j < i :: IsDone(s.claims, KeyOf(cfg, feed.boxes[b].messages[j])))
  }

  /** From any state on, cursors move forward only and done stays done. */
  ghost predicate Safe(cfg: Config, s: State, t: State, feed: Feed) {
    BehindIsDone(cfg, t, feed) && NeverBack(s.cursors, t.cursors) && DoneStays(s.claims, t.claims)
  }

  /** Done messages stay done, and a terminal step leaves its own message done. */
  lemma VisitKeepsDone(cfg: Config, s: State, msg: RawMessage, mid: State, step: Step)
    requires Visited(cfg, Counted(s), msg, mid, step)
    ensures DoneStays(s.claims, mid.claims) && mid.cursors == s.cursors
    ensures step.Terminal? ==> IsDone(mid.claims, KeyOf(cfg, msg)) || Held(s.claims, KeyOf(cfg, msg))
  {
  }

  predicate Held(claims: Claims, key: string) {
    key in claims && claims[key].claimed && !claims[key].done
  }

  /** Moving the cursor to the i-th message passes nothing that is not done. */
  lemma MarkPassesDone(cfg: Config, feed: Feed, s: State, b: nat, i: nat, mid: State)
    requires WellFed(feed) && b < |feed.boxes| && i < |feed.boxes[b].messages|
    requires BehindIsDone(cfg, s, feed) && DoneStays(s.claims, mid.claims) && mid.cursors == s.cursors
    requires forall j | 0 <= j <= i :: IsDone(mid.claims, KeyOf(cfg, feed.boxes[b].messages[j]))
    ensures var slot := SlotOf(cfg, feed.boxes[b].stream);
            BehindIsDone(cfg, mid.(cursors := Committed(mid.cursors, slot, feed.boxes[b].messages[i].cursor)), feed)
  {
    var slot, cursor := SlotOf(cfg, feed.boxes[b].stream), feed.boxes[b].messages[i].cursor;
    var cursors := Committed(mid.cursors, slot, cursor);
    forall c, k | 0 <= c < |feed.boxes| && 0 <= k < |feed.boxes[c].messages|
      && feed.boxes[c].messages[k].cursor.order <= Position(cursors, SlotOf(cfg, feed.boxes[c].stream))
      ensures IsDone(mid.claims, KeyOf(cfg, feed.boxes[c].messages[k]))
    {
      if c == b && cursors != s.cursors {
        assert Position(cursors, slot) == cursor.order;
        assert k <= i;
      } else if cursors != s.cursors {
        assert SlotOf(cfg, feed.boxes[c].stream) != slot;
      }
    }
  }

  lemma VisitKeepsQuiet(cfg: Config, feed: Feed, s: State, msg: RawMessage, mid: State, step: Step)
    requires Visited(cfg, Counted(s), msg, mid, step) && Quiescent(cfg, s.claims, feed) && !step.Escaped?
    ensures Quiescent(cfg, mid.claims, feed)
  {
  }

  lemma TurnKeepsFront(cfg: Config, feed: Feed, s: State, b: nat, i: nat, blocked: bool, mid: State, step: Step)
    requires WellFed(feed) && Front(cfg, s, feed, b, i, blocked) && i < |feed.boxes[b].messages|
    requires Visited(cfg, Counted(s), feed.boxes[b].messages[i], mid, step)
    ensures var next := Bookmarked(cfg, mid, feed.boxes[b].stream, feed.boxes[b].messages[i], step, blocked);
            && Safe(cfg, s, mid, feed) && Safe(cfg, s, next, feed)
            && (!step.Escaped? ==> Front(cfg, next, feed, b, i + 1, blocked || step.Pending?))
            && (step.Terminal? ==> IsDone(next.claims, KeyOf(cfg, feed.boxes[b].messages[i])))
  {
    var msg := feed.boxes[b].messages[i];
    VisitKeepsDone(cfg, s, msg, mid, step);
    assert !Held(s.claims, KeyOf(cfg, msg));
    if step.Terminal? && !blocked {
      MarkPassesDone(cfg, feed, s, b, i, mid);
    }
    if !step.Escaped? {
      VisitKeepsQuiet(cfg, feed, s, msg, mid, step);
    }
  }

  lemma EscapeIsHeld(cfg: Config, feed: Feed, s: State, b: nat, i: nat, mid: State)
    requires b < |feed.boxes| && i < |feed.boxes[b].messages|
    requires Visited(cfg, Counted(s), feed.boxes[b].messages[i], mid, Escaped)
    ensures !Quiescent(cfg, mid.claims, feed)
  {
    assert KeyOf(cfg, feed.boxes[b].messages[i]) in mid.claims;
  }

  lemma SafeTransitive(cfg: Config, s: State, t: State, u: State, feed: Feed)
    requires Safe(cfg, s, t, feed) && Safe(cfg, t, u, feed)
    ensures Safe(cfg, s, u, feed)
  {
  }

  lemma {:induction false} StreamKeepsLowWater(cfg: Config, handle: Handler, feed: Feed, s: State, b: nat, i: nat,
                                               blocked: bool)
    requires Sound(cfg, handle)
    requires WellFed(feed) && Front(cfg, s, feed, b, i, blocked)
    ensures var run := RunStream(cfg, handle, s, feed.boxes[b].stream, feed.boxes[b].messages[i..], blocked);
            && Safe(cfg, s, run.state, feed)
            && (!run.escaped <==> Quiescent(cfg, run.state.claims, feed))
    decreases |feed.boxes[b].messages| - i
  {
    var stream, batch := feed.boxes[b].stream, feed.boxes[b].messages[i..];
    if batch != [] {
      assert batch[0] == feed.boxes[b].messages[i] && batch[1..] == feed.boxes[b].messages[i + 1..];
      var (next, step) := Advance(cfg, handle, s, stream, batch[0], blocked);
      var mid := handle(Counted(s), batch[0]).0;
      EveryTurn(cfg, handle, s, stream, batch[0], blocked);
      TurnKeepsFront(cfg, feed, s, b, i, blocked, mid, step);
      if step.Escaped? {
        EscapeIsHeld(cfg, feed, s, b, i, mid);
      } else {
        StreamKeepsLowWater(cfg, handle, feed, next, b, i + 1, blocked || step.Pending?);
      }
    }
  }

  /** Inside a visit the mark stays where it is. */
  lemma InsideIsSafe(cfg: Config, feed: Feed, s: State, msg: RawMessage, t: State)
    requires BehindIsDone(cfg, s, feed) && Passes(cfg, Counted(s), msg, t)
    ensures Safe(cfg, s, t, feed)
  {
    assert DoneStays(s.claims, t.claims);
  }

  lemma {:induction false} StreamTrailIsSafe(cfg: Config, handle: Handler, insides: Insides, feed: Feed, s: State,
                                             b: nat, i: nat, blocked: bool)
    requires Sound(cfg, handle) && Careful(cfg, insides)
    requires WellFed(feed) && Front(cfg, s, feed, b, i, blocked)
    ensures forall t | t in StreamTrail(cfg, handle, insides, s, feed.boxes[b].stream, feed.boxes[b].messages[i..],
                                        blocked) :: Safe(cfg, s, t, feed)
    decreases |feed.boxes[b].messages| - i
  {
    var stream, batch := feed.boxes[b].stream, feed.boxes[b].messages[i..];
    if batch != [] {
      assert batch[0] == feed.boxes[b].messages[i] && batch[1..] == feed.boxes[b].messages[i + 1..];
      var (next, step) := Advance(cfg, handle, s, stream, batch[0], blocked);
      var mid := handle(Counted(s), batch[0]).0;
      EveryTurn(cfg, handle, s, stream, batch[0], blocked);
      TurnKeepsFront(cfg, feed, s, b, i, blocked, mid, step);
      forall t | t in insides(Counted(s), batch[0]) ensures Safe(cfg, s, t, feed) {
        InsideIsSafe(cfg, feed, s, batch[0], t);
      }
      if !step.Escaped? {
        StreamTrailIsSafe(cfg, handle, insides, feed, next, b, i + 1, blocked || step.Pending?);
        forall t | t in StreamTrail(cfg, handle, insides, next, stream, batch[1..], blocked || step.Pending?)
          ensures Safe(cfg, s, t, feed)
        {
          SafeTransitive(cfg, s, next, t, feed);
        }
      }
    }
  }

  lemma {:induction false} BoxesKeepLowWater(cfg: Config, handle: Handler, insides: Insides, feed: Feed, s: State,
                                             b: nat)
    requires Sound(cfg, handle) && Careful(cfg, insides)
    requires WellFed(feed) && b <= |feed.boxes|
    requires Quiescent(cfg, s.claims, feed) && BehindIsDone(cfg, s, feed)
    ensures var run := RunBoxes(cfg, handle, feed, s, feed.boxes[b..]);
            && (forall t | t in BoxesTrail(cfg, handle, insides, feed, s, feed.boxes[b..]) :: Safe(cfg, s, t, feed))
            && Safe(cfg, s, run.state, feed)
            && (!run.escaped <==> Quiescent(cfg, run.state.claims, feed))
    decreases |feed.boxes| - b
  {
    var boxes := feed.boxes[b..];
    if boxes != [] {
      var box := feed.boxes[b];
      assert boxes[0] == box && boxes[1..] == feed.boxes[b + 1..];
      var i := if feed.resumes then Behind(box.messages, Position(s.cursors, SlotOf(cfg, box.stream))) else 0;
      BehindIsAPrefix(box.messages, Position(s.cursors, SlotOf(cfg, box.stream)));
      assert Fetch(feed, cfg, box, s.cursors) == box.messages[i..];
      StreamKeepsLowWater(cfg, handle, feed, s, b, i, false);
      StreamTrailIsSafe(cfg, handle, insides, feed, s, b, i, false);
      var first := RunStream(cfg, handle, s, box.stream, box.messages[i..], false);
      if !first.escaped {
        BoxesKeepLowWater(cfg, handle, insides, feed, first.state, b + 1);
        forall t | t in BoxesTrail(cfg, handle, insides, feed, first.state, boxes[1..])
          ensures Safe(cfg, s, t, feed)
        {
          SafeTransitive(cfg, s, first.state, t, feed);
        }
        SafeTransitive(cfg, s, first.state, RunBoxes(cfg, handle, feed, first.state, boxes[1..]).state, feed);
      }
    }
  }

  /** In every state of every run that starts with no message held, whatever fails, inside
      every visit as well as between them: all messages at or behind a cursor are done, no
      cursor moves back and nothing done is undone.  The run leaves no message held exactly
      when no exception left it. */
  lemma LowWaterMark(cfg: Config, world: World, feed: Feed, s: State)
    requires WellFed(feed) && Quiescent(cfg, s.claims, feed) && BehindIsDone(cfg, s, feed)
    ensures var run := RunOnce(cfg, world, feed, s);
            && (forall t | t in RunTrail(cfg, world, feed, s) :: Safe(cfg, s, t, feed))
            && Safe(cfg, s, run.state, feed)
            && (!run.escaped <==> Quiescent(cfg, run.state.claims, feed))
  {
    ProcessIsSound(cfg, world);
    ProcessIsCareful(cfg, world);
    assert feed.boxes[0..] == feed.boxes;
    BoxesKeepLowWater(cfg, Handling(cfg, world), InsidesOf(cfg, world), feed, s.(report := EMPTY_REPORT), 0);
  }
}
