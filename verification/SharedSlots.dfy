/** Streams whose keys coincide share one cursor slot: when keys coincide, and what the
    later stream loses. */
module SharedSlots {
  import opened Models
  import opened Observability
  import opened MemoryStores
  import opened Delivery
  import opened Visits
  import opened Runs
  import opened LowWater
  import opened Convergence
  import opened HeldClaims

  // ---- When two streams share a key ----

  /** The folder; no folder and an empty one are the same to a key. */
  function FolderOf(stream: StreamRef): string {
    if stream.folder.Some? then stream.folder.value else ""
  }

  function Suffix(folder: string): string {
    if folder == "" then "" else ":" + folder
  }

  /** The longer mailbox begins with the shorter one, a colon, and what the shorter one's
      folder and the longer one's folder leave between them. */
  predicate Nested(short: StreamRef, long: StreamRef) {
    && |short.mailbox| < |long.mailbox|
    && short.mailbox + ":" == long.mailbox[..|short.mailbox| + 1]
    && FolderOf(short) != "" && FolderOf(short) == long.mailbox[|short.mailbox| + 1..] + Suffix(FolderOf(long))
  }

  lemma KeyIsSuffixed(stream: StreamRef)
    ensures stream.Key() == stream.mailbox + Suffix(FolderOf(stream))
  {
  }

  /** Equal joins of a shorter and a longer head. */
  lemma JoinsSplit(head: string, tail: string, longer: string, rest: string)
    requires |head| < |longer|
    ensures head + tail == longer + rest <==> longer[..|head|] == head && tail == longer[|head|..] + rest
  {
    var front, back := longer[..|head|], longer[|head|..];
    assert longer + rest == front + (back + rest);
    assert (head + tail)[..|head|] == head && (head + tail)[|head|..] == tail;
    assert (front + (back + rest))[..|head|] == front && (front + (back + rest))[|head|..] == back + rest;
  }

  /** A folder with its colon is a text that begins with the colon. */
  lemma SuffixContinues(folder: string, text: string, rest: string)
    requires text != ""
    ensures Suffix(folder) == text + rest <==> folder != "" && text[0] == ':' && folder == text[1..] + rest
  {
    if folder != "" && text[0] == ':' {
      assert text == ":" + text[1..];
      assert text + rest == ":" + (text[1..] + rest);
      assert (":" + folder)[1..] == folder && (text + rest)[1..] == text[1..] + rest;
    } else if folder != "" {
      assert Suffix(folder)[0] == ':' && (text + rest)[0] == text[0];
    }
  }

  lemma {:induction false} LongerMailboxNests(a: StreamRef, b: StreamRef)
    requires |a.mailbox| < |b.mailbox|
    ensures a.Key() == b.Key() <==> Nested(a, b)
  {
    var m, text := |a.mailbox|, b.mailbox[|a.mailbox|..];
    KeyIsSuffixed(a);
    KeyIsSuffixed(b);
    JoinsSplit(a.mailbox, Suffix(FolderOf(a)), b.mailbox, Suffix(FolderOf(b)));
    SuffixContinues(FolderOf(a), text, Suffix(FolderOf(b)));
    assert text[1..] == b.mailbox[m + 1..] && text[0] == b.mailbox[m];
    assert b.mailbox[..m + 1] == b.mailbox[..m] + [b.mailbox[m]];
    assert a.mailbox + ":" == b.mailbox[..m + 1] <==> a.mailbox == b.mailbox[..m] && b.mailbox[m] == ':' by {
      assert (a.mailbox + ":")[..m] == a.mailbox && (a.mailbox + ":")[m] == ':';
      assert b.mailbox[..m + 1][..m] == b.mailbox[..m];
    }
  }

  /** Two streams share a key if and only if they differ at most in writing no folder or an
      empty one, or one mailbox reads as the other mailbox, a colon, and the start of its folder. */
  lemma {:induction false} KeysShareExactly(a: StreamRef, b: StreamRef)
    ensures a.Key() == b.Key()
            <==> (a.mailbox == b.mailbox && FolderOf(a) == FolderOf(b)) || Nested(a, b) || Nested(b, a)
  {
    if |a.mailbox| < |b.mailbox| {
      LongerMailboxNests(a, b);
    } else if |b.mailbox| < |a.mailbox| {
      LongerMailboxNests(b, a);
    } else {
      KeyIsSuffixed(a);
      KeyIsSuffixed(b);
      var m := |a.mailbox|;
      assert a.Key()[..m] == a.mailbox && b.Key()[..m] == b.mailbox;
      assert a.Key()[m..] == Suffix(FolderOf(a)) && b.Key()[m..] == Suffix(FolderOf(b));
      assert FolderOf(a) != "" ==> Suffix(FolderOf(a))[1..] == FolderOf(a);
      assert FolderOf(b) != "" ==> Suffix(FolderOf(b))[1..] == FolderOf(b);
    }
  }

  /** Where no mailbox holds a colon, streams share a key only by an empty folder. */
  lemma ColonFreeMailboxesDoNotNest(a: StreamRef, b: StreamRef)
    requires ':' !in a.mailbox && ':' !in b.mailbox && a.Key() == b.Key()
    ensures a.mailbox == b.mailbox && FolderOf(a) == FolderOf(b)
  {
    KeysShareExactly(a, b);
    NestingNeedsAColon(a, b);
    NestingNeedsAColon(b, a);
  }

  lemma NestingNeedsAColon(a: StreamRef, b: StreamRef)
    ensures Nested(a, b) ==> ':' in b.mailbox
  {
    if Nested(a, b) {
      assert b.mailbox[..|a.mailbox| + 1][|a.mailbox|] == (a.mailbox + ":")[|a.mailbox|] == ':';
    }
  }

  // ---- What sharing a slot loses ----

  /** The first message of box `j` has its key to itself. */
  ghost predicate Alone(cfg: Config, feed: Feed, j: nat) {
    j < |feed.boxes| && feed.boxes[j].messages != []
    && forall b, k | 0 <= b < |feed.boxes| && 0 <= k < |feed.boxes[b].messages| && !(b == j && k == 0) ::
         KeyOf(cfg, feed.boxes[b].messages[k]) != KeyOf(cfg, feed.boxes[j].messages[0])
  }

  /** Box `i` comes first, shares the slot of box `j` and moves it past that box's first message. */
  ghost predicate Shadows(cfg: Config, feed: Feed, i: nat, j: nat) {
    && i < j < |feed.boxes| && feed.resumes
    && feed.boxes[i].messages != [] && feed.boxes[j].messages != []
    && SlotOf(cfg, feed.boxes[i].stream) == SlotOf(cfg, feed.boxes[j].stream)
    && feed.boxes[j].messages[0].cursor.order <= feed.boxes[i].messages[|feed.boxes[i].messages| - 1].cursor.order
    && forall b | 0 <= b < |feed.boxes| :: Increasing(feed.boxes[b].messages)
  }

  /** The slot has passed the first message of box `j`, which is not done. */
  ghost predicate Passed(cfg: Config, feed: Feed, s: State, j: nat) {
    j < |feed.boxes| && feed.boxes[j].messages != []
    && feed.boxes[j].messages[0].cursor.order <= Position(s.cursors, SlotOf(cfg, feed.boxes[j].stream))
  }

  /** A stream leaves the claims on keys it does not carry alone. */
  lemma {:induction false} StreamLeavesKey(cfg: Config, handle: Handler, s: State, stream: StreamRef,
                                           batch: seq<RawMessage>, blocked: bool, key: string)
    requires Sound(cfg, handle) && forall msg | msg in batch :: KeyOf(cfg, msg) != key
    ensures var end := RunStream(cfg, handle, s, stream, batch, blocked).state;
            (IsDone(end.claims, key) <==> IsDone(s.claims, key)) && NeverBack(s.cursors, end.cursors)
    decreases |batch|
  {
    if batch != [] {
      var (next, step) := Advance(cfg, handle, s, stream, batch[0], blocked);
      EveryTurn(cfg, handle, s, stream, batch[0], blocked);
      TurnCursors(cfg, handle, s, stream, batch[0], blocked);
      CommitMoves(s.cursors, SlotOf(cfg, stream), batch[0].cursor, 0);
      assert batch[0] in batch && forall msg | msg in batch[1..] :: msg in batch;
      assert IsDone(next.claims, key) <==> IsDone(s.claims, key);
      if !step.Escaped? {
        StreamLeavesKey(cfg, handle, next, stream, batch[1..], blocked || step.Pending?, key);
      }
    }
  }

  /** What a box fetches never includes the passed message. */
  lemma BoxSkips(cfg: Config, feed: Feed, s: State, i: nat, j: nat, b: nat)
    requires Alone(cfg, feed, j) && Shadows(cfg, feed, i, j) && b < |feed.boxes|
    requires b == j ==> Passed(cfg, feed, s, j)
    ensures forall msg | msg in Fetch(feed, cfg, feed.boxes[b], s.cursors) ::
              KeyOf(cfg, msg) != KeyOf(cfg, feed.boxes[j].messages[0])
  {
    var messages, at := feed.boxes[b].messages, Position(s.cursors, SlotOf(cfg, feed.boxes[b].stream));
    BehindIsAPrefix(messages, at);
    var batch := Fetch(feed, cfg, feed.boxes[b], s.cursors);
    assert b == j ==> 0 < Behind(messages, at);
    forall msg | msg in batch ensures KeyOf(cfg, msg) != KeyOf(cfg, feed.boxes[j].messages[0]) {
      var k :| 0 <= k < |batch| && batch[k] == msg;
      assert msg == messages[Behind(messages, at) + k];
    }
  }

  lemma StillPassed(cfg: Config, feed: Feed, s: State, t: State, j: nat)
    requires Passed(cfg, feed, s, j) && NeverBack(s.cursors, t.cursors) && Increasing(feed.boxes[j].messages)
    ensures Passed(cfg, feed, t, j)
  {
  }

  /** Running the shadowing box passes the shadowed message. */
  lemma {:induction false} ShadowPasses(cfg: Config, handle: Handler, feed: Feed, s: State, i: nat, j: nat)
    requires Sound(cfg, handle) && Settling(handle) && Shadows(cfg, feed, i, j)
    ensures Passed(cfg, feed, RunStream(cfg, handle, s, feed.boxes[i].stream,
                                        Fetch(feed, cfg, feed.boxes[i], s.cursors), false).state, j)
  {
    var box := feed.boxes[i];
    var at := Position(s.cursors, SlotOf(cfg, box.stream));
    var batch := Fetch(feed, cfg, box, s.cursors);
    BehindIsAPrefix(box.messages, at);
    SmoothStream(cfg, handle, s, box.stream, batch);
    StreamReachesItsEnd(cfg, handle, s, box.stream, batch);
    assert batch != [] ==> batch[|batch| - 1] == box.messages[|box.messages| - 1];
  }

  lemma {:induction false} OneBoxSkips(cfg: Config, handle: Handler, feed: Feed, s: State, i: nat, j: nat, b: nat)
    requires Sound(cfg, handle) && Settling(handle) && Alone(cfg, feed, j) && Shadows(cfg, feed, i, j)
    requires b < |feed.boxes| && (i < b ==> Passed(cfg, feed, s, j))
    requires !IsDone(s.claims, KeyOf(cfg, feed.boxes[j].messages[0]))
    ensures var run := RunStream(cfg, handle, s, feed.boxes[b].stream, Fetch(feed, cfg, feed.boxes[b], s.cursors),
                                 false);
            && !run.escaped && !IsDone(run.state.claims, KeyOf(cfg, feed.boxes[j].messages[0]))
            && (i < b + 1 ==> Passed(cfg, feed, run.state, j))
  {
    var box, batch := feed.boxes[b], Fetch(feed, cfg, feed.boxes[b], s.cursors);
    BoxSkips(cfg, feed, s, i, j, b);
    StreamLeavesKey(cfg, handle, s, box.stream, batch, false, KeyOf(cfg, feed.boxes[j].messages[0]));
    SmoothStream(cfg, handle, s, box.stream, batch);
    if b == i {
      ShadowPasses(cfg, handle, feed, s, i, j);
    } else if i < b {
      StillPassed(cfg, feed, s, RunStream(cfg, handle, s, box.stream, batch, false).state, j);
    }
  }

  lemma {:induction false} BoxesSkip(cfg: Config, handle: Handler, feed: Feed, s: State, i: nat, j: nat, b: nat)
    requires Sound(cfg, handle) && Settling(handle) && Alone(cfg, feed, j) && Shadows(cfg, feed, i, j)
    requires b <= |feed.boxes| && (i < b ==> Passed(cfg, feed, s, j))
    requires !IsDone(s.claims, KeyOf(cfg, feed.boxes[j].messages[0]))
    ensures var end := RunBoxes(cfg, handle, feed, s, feed.boxes[b..]).state;
            Passed(cfg, feed, end, j) && !IsDone(end.claims, KeyOf(cfg, feed.boxes[j].messages[0]))
    decreases |feed.boxes| - b
  {
    if b < |feed.boxes| {
      var box, boxes := feed.boxes[b], feed.boxes[b..];
      assert boxes[0] == box && boxes[1..] == feed.boxes[b + 1..];
      var batch := Fetch(feed, cfg, box, s.cursors);
      OneBoxSkips(cfg, handle, feed, s, i, j, b);
      BoxesSkip(cfg, handle, feed, RunStream(cfg, handle, s, box.stream, batch, false).state, i, j, b + 1);
    }
  }

  /** However often the feed is run on smooth days, the shadowed message stays undone with
      the cursor past it. */
  lemma {:induction false} ShadowedIsLost(cfg: Config, handle: Handler, feed: Feed, s: State, i: nat, j: nat, n: nat)
    requires Sound(cfg, handle) && Settling(handle) && Alone(cfg, feed, j) && Shadows(cfg, feed, i, j) && 1 <= n
    requires !IsDone(s.claims, KeyOf(cfg, feed.boxes[j].messages[0]))
    ensures var end := RunMany(cfg, handle, feed, s, n).state;
            && !IsDone(end.claims, KeyOf(cfg, feed.boxes[j].messages[0]))
            && Passed(cfg, feed, end, j) && !BehindIsDone(cfg, end, feed)
  {
    assert feed.boxes[0..] == feed.boxes;
    if n == 1 {
      BoxesSkip(cfg, handle, feed, s.(report := EMPTY_REPORT), i, j, 0);
    } else {
      ShadowedIsLost(cfg, handle, feed, s, i, j, n - 1);
      var before := RunMany(cfg, handle, feed, s, n - 1).state;
      BoxesSkip(cfg, handle, feed, before.(report := EMPTY_REPORT), i, j, 0);
    }
  }
}
