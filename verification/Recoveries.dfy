/** What becomes of a claim left behind over a store with leases: exactly when later runs
    still deliver its message, and when the cursor passes it for good. */
module Recoveries {
  import opened Models
  import opened Observability
  import opened MemoryStores
  import opened Delivery
  import opened Visits
  import opened Runs
  import opened LowWater
  import opened HeldClaims
  import opened Convergence
  import opened Scenarios
  import opened Leases
  import opened LeasedRuns
  import opened LeasedLowWater
  import LowWaterHistories
  import Escapes

  // ---- A claim nobody touches ----

  /** The key's row is as it was. */
  predicate Untouched(s: State, t: State, key: string) {
    SameAt(s.claims, t.claims, key) && StampOf(s, key) == StampOf(t, key)
  }

  /** The key is held, and its lease runs whenever the clock is read. */
  ghost predicate Firm(cfg: Config, s: State, key: string, clock: Clock) {
    Held(s.claims, key) && forall n, msg :: !LeaseOver(cfg, s, key, clock(n, msg))
  }

  /** A visit moves no cursor, and leaves the key's row alone unless it visits it when its
      lease may be over. */
  ghost predicate LeavesAlone(cfg: Config, handle: Handler, key: string, clock: Clock) {
    forall s, msg ::
      && handle(s, msg).0.cursors == s.cursors
      && (KeyOf(cfg, msg) != key || Firm(cfg, s, key, clock) ==> Untouched(s, handle(s, msg).0, key))
  }

  lemma {:induction false} LeasedLeavesAlone(cfg: Config, world: World, clock: Clock, key: string)
    ensures LeavesAlone(cfg, LeasedHandling(cfg, world, clock), key, clock)
  {
    forall s, msg
      ensures var t := LeasedHandling(cfg, world, clock)(s, msg).0;
              t.cursors == s.cursors
              && (KeyOf(cfg, msg) != key || Firm(cfg, s, key, clock) ==> Untouched(s, t, key))
    {
      var visited, now := KeyOf(cfg, msg), clock(s.visits, msg);
      var y := Yielding(cfg, s, visited, now);
      EveryVisit(cfg, world, y, msg);
      LeasedVisitLeaves(cfg, world, clock, s, msg);
      ClaimsLeftElsewhere(cfg, world(s.visits, msg), y.claims, visited, LeasedProcess(cfg, world, clock, s, msg).1);
      assert SameElsewhere(s.claims, y.claims, visited);
    }
  }

  lemma {:induction false} StreamLeavesAlone(cfg: Config, handle: Handler, s: State, stream: StreamRef,
                                             batch: seq<RawMessage>, blocked: bool, key: string, clock: Clock)
    requires LeavesAlone(cfg, handle, key, clock)
    requires Firm(cfg, s, key, clock) || forall msg | msg in batch :: KeyOf(cfg, msg) != key
    ensures var end := RunStream(cfg, handle, s, stream, batch, blocked).state;
            Untouched(s, end, key) && NeverBack(s.cursors, end.cursors)
    decreases |batch|
  {
    if batch != [] {
      var (next, step) := Advance(cfg, handle, s, stream, batch[0], blocked);
      var mid := handle(Counted(s), batch[0]).0;
      assert batch[0] in batch && forall msg | msg in batch[1..] :: msg in batch;
      assert mid.cursors == s.cursors && Untouched(Counted(s), mid, key);
      assert Untouched(s, next, key) && NeverBack(s.cursors, next.cursors);
      if !step.Escaped? {
        StreamLeavesAlone(cfg, handle, next, stream, batch[1..], blocked || step.Pending?, key, clock);
      }
    }
  }

  /** Every message with this key in the boxes from `b` on is at or behind its cursor. */
  ghost predicate AllPassed(cfg: Config, feed: Feed, cursors: Cursors, b: nat, key: string) {
    forall c, k | b <= c < |feed.boxes| && 0 <= k < |feed.boxes[c].messages|
                  && KeyOf(cfg, feed.boxes[c].messages[k]) == key ::
      feed.boxes[c].messages[k].cursor.order <= Position(cursors, SlotOf(cfg, feed.boxes[c].stream))
  }

  lemma PassedIsNotFetched(cfg: Config, feed: Feed, cursors: Cursors, b: nat, key: string)
    requires WellFed(feed) && feed.resumes && b < |feed.boxes| && AllPassed(cfg, feed, cursors, b, key)
    ensures forall msg | msg in Fetch(feed, cfg, feed.boxes[b], cursors) :: KeyOf(cfg, msg) != key
  {
    var messages, at := feed.boxes[b].messages, Position(cursors, SlotOf(cfg, feed.boxes[b].stream));
    var batch := Fetch(feed, cfg, feed.boxes[b], cursors);
    BehindIsAPrefix(messages, at);
    forall msg | msg in batch ensures KeyOf(cfg, msg) != key {
      var k :| 0 <= k < |batch| && batch[k] == msg;
      assert msg == messages[Behind(messages, at) + k];
    }
  }

  lemma {:induction false} BoxesLeaveAlone(cfg: Config, handle: Handler, feed: Feed, s: State, b: nat, key: string,
                                           clock: Clock)
    requires LeavesAlone(cfg, handle, key, clock) && WellFed(feed) && feed.resumes && b <= |feed.boxes|
    requires Firm(cfg, s, key, clock) || AllPassed(cfg, feed, s.cursors, b, key)
    ensures Untouched(s, RunBoxes(cfg, handle, feed, s, feed.boxes[b..]).state, key)
    decreases |feed.boxes| - b
  {
    if b < |feed.boxes| {
      var box, boxes := feed.boxes[b], feed.boxes[b..];
      assert boxes[0] == box && boxes[1..] == feed.boxes[b + 1..];
      var batch := Fetch(feed, cfg, box, s.cursors);
      if !Firm(cfg, s, key, clock) {
        PassedIsNotFetched(cfg, feed, s.cursors, b, key);
      }
      StreamLeavesAlone(cfg, handle, s, box.stream, batch, false, key, clock);
      var first := RunStream(cfg, handle, s, box.stream, batch, false);
      if !first.escaped {
        StaysPassed(cfg, feed, s.cursors, first.state.cursors, b, key);
        BoxesLeaveAlone(cfg, handle, feed, first.state, b + 1, key, clock);
      }
    }
  }

  lemma StaysPassed(cfg: Config, feed: Feed, before: Cursors, after: Cursors, b: nat, key: string)
    requires NeverBack(before, after) && WellFed(feed)
    ensures AllPassed(cfg, feed, before, b, key) ==> AllPassed(cfg, feed, after, b + 1, key)
  {
  }

  // ---- What a smooth run settles ----

  /** Nothing new is held, and nothing done is undone. */
  ghost predicate Settles(before: Claims, after: Claims) {
    DoneStays(before, after) && forall key | Held(after, key) :: Held(before, key)
  }

  lemma {:induction false} StreamSettlesAll(cfg: Config, handle: Handler, s: State, stream: StreamRef,
                                            batch: seq<RawMessage>, blocked: bool)
    requires Sound(cfg, handle) && Settling(handle)
    ensures var after := RunStream(cfg, handle, s, stream, batch, blocked).state.claims;
            && Settles(s.claims, after)
            && forall msg | msg in batch :: IsDone(after, KeyOf(cfg, msg)) || Held(s.claims, KeyOf(cfg, msg))
    decreases |batch|
  {
    if batch != [] {
      var (next, step) := Advance(cfg, handle, s, stream, batch[0], blocked);
      var mid := handle(Counted(s), batch[0]).0;
      EveryTurn(cfg, handle, s, stream, batch[0], blocked);
      VisitKeepsDone(cfg, s, batch[0], mid, step);
      assert Settles(s.claims, next.claims);
      assert batch == [batch[0]] + batch[1..];
      StreamSettlesAll(cfg, handle, next, stream, batch[1..], blocked || step.Pending?);
    }
  }

  /** The message lies ahead of its cursor. */
  predicate AheadOf(cfg: Config, cursors: Cursors, feed: Feed, b: nat, i: nat) {
    b < |feed.boxes| && i < |feed.boxes[b].messages|
    && Position(cursors, SlotOf(cfg, feed.boxes[b].stream)) < feed.boxes[b].messages[i].cursor.order
  }

  lemma AheadIsFetched(cfg: Config, feed: Feed, cursors: Cursors, b: nat, i: nat)
    requires WellFed(feed) && AheadOf(cfg, cursors, feed, b, i)
    ensures feed.boxes[b].messages[i] in Fetch(feed, cfg, feed.boxes[b], cursors)
  {
    var messages, at := feed.boxes[b].messages, Position(cursors, SlotOf(cfg, feed.boxes[b].stream));
    BehindIsAPrefix(messages, at);
    if feed.resumes {
      assert messages[Behind(messages, at)..][i - Behind(messages, at)] == messages[i];
    }
  }

  lemma StaysAhead(cfg: Config, handle: Handler, feed: Feed, s: State, c: nat, batch: seq<RawMessage>, b: nat, i: nat)
    requires Sound(cfg, handle) && WellFed(feed) && c < b && AheadOf(cfg, s.cursors, feed, b, i)
    requires feed.boxes[c].messages == [] ==> batch == []
    ensures AheadOf(cfg, RunStream(cfg, handle, s, feed.boxes[c].stream, batch, false).state.cursors, feed, b, i)
  {
    OthersStay(cfg, handle, s, feed.boxes[c].stream, batch, false);
    if feed.boxes[c].messages != [] {
      assert SlotOf(cfg, feed.boxes[c].stream) != SlotOf(cfg, feed.boxes[b].stream);
    }
  }

  lemma {:induction false} BoxesSettle(cfg: Config, handle: Handler, feed: Feed, s: State, boxes: seq<Mailbox>)
    requires Sound(cfg, handle) && Settling(handle)
    ensures Settles(s.claims, RunBoxes(cfg, handle, feed, s, boxes).state.claims)
    decreases |boxes|
  {
    if boxes != [] {
      var batch := Fetch(feed, cfg, boxes[0], s.cursors);
      var first := RunStream(cfg, handle, s, boxes[0].stream, batch, false);
      StreamSettlesAll(cfg, handle, s, boxes[0].stream, batch, false);
      if !first.escaped {
        BoxesSettle(cfg, handle, feed, first.state, boxes[1..]);
      }
    }
  }

  /** What is ahead of its cursor ends done, unless it was held. */
  lemma {:induction false} BoxesSettleOne(cfg: Config, handle: Handler, feed: Feed, s: State, c: nat, b: nat, i: nat)
    requires Sound(cfg, handle) && Settling(handle) && WellFed(feed)
    requires c <= b && AheadOf(cfg, s.cursors, feed, b, i)
    ensures var key := KeyOf(cfg, feed.boxes[b].messages[i]);
            IsDone(RunBoxes(cfg, handle, feed, s, feed.boxes[c..]).state.claims, key) || Held(s.claims, key)
    decreases b - c
  {
    var box, boxes := feed.boxes[c], feed.boxes[c..];
    assert boxes[0] == box && boxes[1..] == feed.boxes[c + 1..];
    var batch := Fetch(feed, cfg, box, s.cursors);
    var first := RunStream(cfg, handle, s, box.stream, batch, false);
    SmoothStream(cfg, handle, s, box.stream, batch);
    StreamSettlesAll(cfg, handle, s, box.stream, batch, false);
    if c == b {
      AheadIsFetched(cfg, feed, s.cursors, b, i);
      BoxesSettle(cfg, handle, feed, first.state, boxes[1..]);
    } else {
      StaysAhead(cfg, handle, feed, s, c, batch, b, i);
      BoxesSettleOne(cfg, handle, feed, first.state, c + 1, b, i);
    }
  }

  // ---- What is done is on record ----

  /** The key was emitted, dropped or dead-lettered. */
  ghost predicate Ended(s: State, key: string) {
    exists trace :: trace in s.observed && trace.key == key && trace.disposition != Duplicate
  }

  /** What has become done has its trace. */
  ghost predicate Reports(s: State, t: State) {
    && (forall trace | trace in s.observed :: trace in t.observed)
    && forall key | IsDone(t.claims, key) && !IsDone(s.claims, key) :: Ended(t, key)
  }

  ghost predicate Reporting(handle: Handler) {
    forall s, msg :: Reports(s, handle(s, msg).0)
  }

  lemma {:induction false} VisitReports(cfg: Config, s: State, msg: RawMessage, t: State, step: Step)
    requires Visited(cfg, s, msg, t, step)
    ensures Reports(s, t)
  {
    var traces :| TracesOf(KeyOf(cfg, msg), step, traces) && t.observed == s.observed + traces;
    if IsDone(t.claims, KeyOf(cfg, msg)) && !IsDone(s.claims, KeyOf(cfg, msg)) {
      assert traces[0] in t.observed;
    }
  }

  lemma {:induction false} LeasedReporting(cfg: Config, world: World, clock: Clock)
    ensures Reporting(LeasedHandling(cfg, world, clock))
  {
    forall s, msg ensures Reports(s, LeasedHandling(cfg, world, clock)(s, msg).0) {
      var y := Yielding(cfg, s, KeyOf(cfg, msg), clock(s.visits, msg));
      var (t, step) := Process(cfg, world, y, msg);
      EveryVisit(cfg, world, y, msg);
      VisitReports(cfg, y, msg, t, step);
      assert forall key :: IsDone(y.claims, key) <==> IsDone(s.claims, key);
      EndedStays(t, LeasedProcess(cfg, world, clock, s, msg).0);
    }
  }

  lemma EndedStays(s: State, t: State)
    requires forall trace | trace in s.observed :: trace in t.observed
    ensures forall key | Ended(s, key) :: Ended(t, key)
  {
  }

  lemma {:induction false} ReportsCompose(s: State, t: State, u: State)
    requires Reports(s, t) && Reports(t, u)
    ensures Reports(s, u)
  {
    EndedStays(t, u);
  }

  lemma {:induction false} StreamReports(cfg: Config, handle: Handler, s: State, stream: StreamRef,
                                         batch: seq<RawMessage>, blocked: bool)
    requires Reporting(handle)
    ensures Reports(s, RunStream(cfg, handle, s, stream, batch, blocked).state)
    decreases |batch|
  {
    if batch != [] {
      var (next, step) := Advance(cfg, handle, s, stream, batch[0], blocked);
      assert Reports(Counted(s), handle(Counted(s), batch[0]).0);
      EndedStays(handle(Counted(s), batch[0]).0, next);
      if !step.Escaped? {
        StreamReports(cfg, handle, next, stream, batch[1..], blocked || step.Pending?);
        ReportsCompose(s, next, RunStream(cfg, handle, next, stream, batch[1..], blocked || step.Pending?).state);
      }
    }
  }

  lemma {:induction false} BoxesReport(cfg: Config, handle: Handler, feed: Feed, s: State, boxes: seq<Mailbox>)
    requires Reporting(handle)
    ensures Reports(s, RunBoxes(cfg, handle, feed, s, boxes).state)
    decreases |boxes|
  {
    if boxes != [] {
      var batch := Fetch(feed, cfg, boxes[0], s.cursors);
      var first := RunStream(cfg, handle, s, boxes[0].stream, batch, false);
      StreamReports(cfg, handle, s, boxes[0].stream, batch, false);
      if !first.escaped {
        BoxesReport(cfg, handle, feed, first.state, boxes[1..]);
        ReportsCompose(s, first.state, RunBoxes(cfg, handle, feed, first.state, boxes[1..]).state);
      }
    }
  }

  lemma {:induction false} LeasedRunReports(cfg: Config, call: TimedCall, s: State)
    ensures Reports(s, LeasedRunning(cfg)(call, s))
  {
    var start, t := s.(report := EMPTY_REPORT), LeasedRunning(cfg)(call, s);
    LeasedReporting(cfg, call.world, call.clock);
    BoxesReport(cfg, LeasedHandling(cfg, call.world, call.clock), call.feed, start, call.feed.boxes);
    assert start.observed == s.observed && start.claims == s.claims;
  }

  // ---- One smooth run ----

  /** A smooth run of what has arrived. */
  ghost predicate Smooth(call: TimedCall, all: Feed) {
    && LowWaterHistories.Arrived(call.feed, all) && call.feed.resumes && SmoothDay(call.world)
    && NotBefore(call.clock, call.from)
  }

  /** No lease on a message of the run's feed ends while it is under way. */
  ghost predicate Unhurried(cfg: Config, call: TimedCall, s: State) {
    SteadyFeed(cfg, s, call.clock, call.from, call.feed)
  }

  /** What a smooth run does to the cursors, and for one message with the key. */
  ghost predicate RunsFor(cfg: Config, call: TimedCall, s: State, t: State, b: nat, i: nat, key: string) {
    && NeverBack(s.cursors, t.cursors) && DoneStays(s.claims, t.claims) && Reports(s, t)
    && (AheadOf(cfg, s.cursors, call.feed, b, i) ==>
          !AheadOf(cfg, t.cursors, call.feed, b, i)
          && if InLease(cfg, s, key, call.from) then Untouched(s, t, key) else IsDone(t.claims, key))
    && (AllPassed(cfg, call.feed, s.cursors, 0, key) ==> Untouched(s, t, key))
  }

  lemma {:induction false} SmoothRunReaches(cfg: Config, handle: Handler, feed: Feed, s: State, b: nat, i: nat)
    requires Sound(cfg, handle) && Settling(handle) && WellFed(feed)
    ensures var t := RunFeed(cfg, handle, feed, s).state;
            && NeverBack(s.cursors, t.cursors) && Settles(s.claims, t.claims)
            && (AheadOf(cfg, s.cursors, feed, b, i) ==>
                  var key := KeyOf(cfg, feed.boxes[b].messages[i]);
                  !AheadOf(cfg, t.cursors, feed, b, i) && (IsDone(t.claims, key) || Held(s.claims, key)))
  {
    var start := s.(report := EMPTY_REPORT);
    assert feed.boxes[0..] == feed.boxes;
    SmoothBoxes(cfg, handle, feed, start, 0);
    BoxesSettle(cfg, handle, feed, start, feed.boxes);
    if AheadOf(cfg, s.cursors, feed, b, i) {
      BoxesSettleOne(cfg, handle, feed, start, 0, b, i);
      var messages := feed.boxes[b].messages;
      assert CursorReaches(cfg, RunFeed(cfg, handle, feed, s).state.cursors, feed.boxes[b]);
      assert messages[i].cursor.order <= messages[|messages| - 1].cursor.order;
    }
  }

  lemma FreedIsInLease(cfg: Config, s: State, now: Time)
    ensures forall key :: IsDone(Freed(cfg, s, now).claims, key) <==> IsDone(s.claims, key)
    ensures forall key :: Held(Freed(cfg, s, now).claims, key) <==> InLease(cfg, s, key, now)
  {
  }

  /** The plain run that a smooth one over leased claims follows. */
  lemma {:induction false} LeasedRunFollows(cfg: Config, call: TimedCall, s: State)
    requires NotBefore(call.clock, call.from) && Unhurried(cfg, call, s)
    ensures var t, plain := LeasedRunning(cfg)(call, s),
                RunOnce(cfg, call.world, call.feed, Freed(cfg, s, call.from)).state;
            t.cursors == plain.cursors && forall key :: IsDone(t.claims, key) <==> IsDone(plain.claims, key)
  {
    var t, plain := LeasedRunning(cfg)(call, s),
        RunOnce(cfg, call.world, call.feed, Freed(cfg, s, call.from)).state;
    LeasedRunIsARun(cfg, call.world, call.clock, call.feed, s, call.from);
    AlikeKeepsMark(cfg, call.feed, call.from, t, plain);
  }

  /** Cursors and done messages after a smooth run over leased claims. */
  lemma {:induction false} LeasedRunReaches(cfg: Config, call: TimedCall, s: State, b: nat, i: nat)
    requires WellFed(call.feed) && SmoothDay(call.world) && NotBefore(call.clock, call.from) && Unhurried(cfg, call, s)
    ensures var t := LeasedRunning(cfg)(call, s);
            && NeverBack(s.cursors, t.cursors) && DoneStays(s.claims, t.claims)
            && (AheadOf(cfg, s.cursors, call.feed, b, i) ==>
                  var key := KeyOf(cfg, call.feed.boxes[b].messages[i]);
                  && !AheadOf(cfg, t.cursors, call.feed, b, i)
                  && (IsDone(t.claims, key) || InLease(cfg, s, key, call.from)))
  {
    LeasedRunFollows(cfg, call, s);
    ProcessIsSound(cfg, call.world);
    SmoothDaySettles(cfg, call.world);
    SmoothRunReaches(cfg, Handling(cfg, call.world), call.feed, Freed(cfg, s, call.from), b, i);
    FreedIsInLease(cfg, s, call.from);
  }

  lemma {:induction false} LeasedRunLeavesAlone(cfg: Config, call: TimedCall, s: State, key: string)
    requires WellFed(call.feed) && call.feed.resumes
    requires Firm(cfg, s, key, call.clock) || AllPassed(cfg, call.feed, s.cursors, 0, key)
    ensures Untouched(s, LeasedRunning(cfg)(call, s), key)
  {
    var start := s.(report := EMPTY_REPORT);
    assert call.feed.boxes[0..] == call.feed.boxes;
    LeasedLeavesAlone(cfg, call.world, call.clock, key);
    BoxesLeaveAlone(cfg, LeasedHandling(cfg, call.world, call.clock), call.feed, start, 0, key, call.clock);
  }

  lemma {:induction false} SmoothRunFor(cfg: Config, call: TimedCall, all: Feed, s: State, b: nat, i: nat)
    requires WellFed(all) && Smooth(call, all) && Unhurried(cfg, call, s)
    requires b < |all.boxes| && i < |all.boxes[b].messages|
    ensures RunsFor(cfg, call, s, LeasedRunning(cfg)(call, s), b, i, KeyOf(cfg, all.boxes[b].messages[i]))
  {
    var key := KeyOf(cfg, all.boxes[b].messages[i]);
    LowWaterHistories.ArrivedIsWellFed(call.feed, all);
    LeasedRunReaches(cfg, call, s, b, i);
    LeasedRunReports(cfg, call, s);
    assert i < |call.feed.boxes[b].messages| ==> call.feed.boxes[b].messages[i] == all.boxes[b].messages[i];
    if AllPassed(cfg, call.feed, s.cursors, 0, key) {
      LeasedRunLeavesAlone(cfg, call, s, key);
    } else if AheadOf(cfg, s.cursors, call.feed, b, i) && InLease(cfg, s, key, call.from) {
      assert call.feed.boxes[b] in call.feed.boxes && all.boxes[b].messages[i] in call.feed.boxes[b].messages;
      assert Steadily(cfg, s, call.clock, call.from, key);
      LeasedRunLeavesAlone(cfg, call, s, key);
    }
  }

  // ---- Smooth runs in a row ----

  /** The message has its key to itself. */
  ghost predicate OnlyOne(cfg: Config, all: Feed, b: nat, i: nat) {
    b < |all.boxes| && i < |all.boxes[b].messages|
    && forall c, k | 0 <= c < |all.boxes| && 0 <= k < |all.boxes[c].messages| && !(c == b && k == i) ::
         KeyOf(cfg, all.boxes[c].messages[k]) != KeyOf(cfg, all.boxes[b].messages[i])
  }

  /** The k-th run fetches the message. */
  predicate Fetches(cfg: Config, calls: seq<TimedCall>, states: seq<State>, b: nat, i: nat, k: nat) {
    k < |calls| && k < |states| && AheadOf(cfg, states[k].cursors, calls[k].feed, b, i)
  }

  ghost predicate FetchedBy(cfg: Config, calls: seq<TimedCall>, states: seq<State>, b: nat, i: nat, n: nat) {
    exists k :: 0 <= k < n && Fetches(cfg, calls, states, b, i, k)
  }

  /** None of the first `n` runs that fetch the message starts within the lease. */
  ghost predicate NoneEarly(cfg: Config, calls: seq<TimedCall>, states: seq<State>, b: nat, i: nat, n: nat,
                            since: Time) {
    forall k | 0 <= k < n && Fetches(cfg, calls, states, b, i, k) :: calls[k].from - since >= Lease(cfg)
  }

  lemma NotFetchedIsPassed(cfg: Config, all: Feed, feed: Feed, cursors: Cursors, b: nat, i: nat)
    requires OnlyOne(cfg, all, b, i) && LowWaterHistories.Arrived(feed, all) && !AheadOf(cfg, cursors, feed, b, i)
    ensures AllPassed(cfg, feed, cursors, 0, KeyOf(cfg, all.boxes[b].messages[i]))
  {
    forall c, k | 0 <= c < |feed.boxes| && 0 <= k < |feed.boxes[c].messages|
                  && KeyOf(cfg, feed.boxes[c].messages[k]) == KeyOf(cfg, all.boxes[b].messages[i])
      ensures feed.boxes[c].messages[k].cursor.order <= Position(cursors, SlotOf(cfg, feed.boxes[c].stream))
    {
      assert feed.boxes[c].messages[k] == all.boxes[c].messages[k];
    }
  }

  /** Where the message stands after `n` smooth runs. */
  ghost predicate Stands(cfg: Config, calls: seq<TimedCall>, states: seq<State>, all: Feed, b: nat, i: nat, n: nat)
    requires n < |states| && b < |all.boxes| && i < |all.boxes[b].messages|
  {
    var key, fetched := KeyOf(cfg, all.boxes[b].messages[i]), FetchedBy(cfg, calls, states, b, i, n);
    && (fetched ==> !AheadOf(cfg, states[n].cursors, all, b, i))
    && (IsDone(states[n].claims, key) <==> fetched && NoneEarly(cfg, calls, states, b, i, n, StampOf(states[0], key)))
    && (if IsDone(states[n].claims, key) then Ended(states[n], key) else Untouched(states[0], states[n], key))
  }

  lemma StandsAtFirst(cfg: Config, calls: seq<TimedCall>, states: seq<State>, all: Feed, b: nat, i: nat)
    requires 0 < |states| && b < |all.boxes| && i < |all.boxes[b].messages|
    requires Held(states[0].claims, KeyOf(cfg, all.boxes[b].messages[i]))
    ensures Stands(cfg, calls, states, all, b, i, 0)
  {
  }

  lemma {:induction false} OneMoreRun(cfg: Config, calls: seq<TimedCall>, states: seq<State>, all: Feed, b: nat,
                                      i: nat, n: nat)
    requires 0 < n < |states| && n <= |calls| && WellFed(all) && OnlyOne(cfg, all, b, i) && Smooth(calls[n - 1], all)
    requires Held(states[0].claims, KeyOf(cfg, all.boxes[b].messages[i]))
    requires Stands(cfg, calls, states, all, b, i, n - 1)
    requires RunsFor(cfg, calls[n - 1], states[n - 1], states[n], b, i, KeyOf(cfg, all.boxes[b].messages[i]))
    ensures Stands(cfg, calls, states, all, b, i, n)
  {
    var key, call, s, t := KeyOf(cfg, all.boxes[b].messages[i]), calls[n - 1], states[n - 1], states[n];
    var since := StampOf(states[0], key);
    EndedStays(s, t);
    if Fetches(cfg, calls, states, b, i, n - 1) {
      assert call.feed.boxes[b].messages[i] == all.boxes[b].messages[i];
      assert AheadOf(cfg, s.cursors, all, b, i);
      assert !FetchedBy(cfg, calls, states, b, i, n - 1);
      assert Untouched(states[0], s, key);
      assert FetchedBy(cfg, calls, states, b, i, n);
      assert InLease(cfg, s, key, call.from) <==> call.from - since < Lease(cfg);
      assert NoneEarly(cfg, calls, states, b, i, n, since) <==> call.from - since >= Lease(cfg);
    } else {
      NotFetchedIsPassed(cfg, all, call.feed, s.cursors, b, i);
      assert FetchedBy(cfg, calls, states, b, i, n) <==> FetchedBy(cfg, calls, states, b, i, n - 1);
      assert NoneEarly(cfg, calls, states, b, i, n, since) <==> NoneEarly(cfg, calls, states, b, i, n - 1, since);
    }
  }

  /** A way to answer calls that does for this message what a smooth run does. */
  ghost predicate Answers(cfg: Config, all: Feed, b: nat, i: nat, next: TimedNext)
    requires b < |all.boxes| && i < |all.boxes[b].messages|
  {
    forall call, s {:trigger next(call, s)} | Smooth(call, all) && Unhurried(cfg, call, s) ::
      RunsFor(cfg, call, s, next(call, s), b, i, KeyOf(cfg, all.boxes[b].messages[i]))
  }

  lemma LeasedAnswers(cfg: Config, all: Feed, b: nat, i: nat)
    requires WellFed(all) && b < |all.boxes| && i < |all.boxes[b].messages|
    ensures Answers(cfg, all, b, i, LeasedRunning(cfg))
  {
    forall call, s | Smooth(call, all) && Unhurried(cfg, call, s)
      ensures RunsFor(cfg, call, s, LeasedRunning(cfg)(call, s), b, i, KeyOf(cfg, all.boxes[b].messages[i]))
    {
      SmoothRunFor(cfg, call, all, s, b, i);
    }
  }

  lemma {:induction false} StandsAfter(cfg: Config, all: Feed, next: TimedNext, calls: seq<TimedCall>,
                                       states: seq<State>, n: nat, b: nat, i: nat)
    requires WellFed(all) && OnlyOne(cfg, all, b, i) && Answers(cfg, all, b, i, next)
    requires TimedHistory(next, calls, states) && n < |states|
    requires forall k | 0 <= k < |calls| :: Smooth(calls[k], all) && Unhurried(cfg, calls[k], states[k])
    requires Held(states[0].claims, KeyOf(cfg, all.boxes[b].messages[i]))
    ensures Stands(cfg, calls, states, all, b, i, n)
  {
    if n == 0 {
      StandsAtFirst(cfg, calls, states, all, b, i);
    } else {
      StandsAfter(cfg, all, next, calls, states, n - 1, b, i);
      assert states[n - 1 + 1] == next(calls[n - 1], states[n - 1]) && Smooth(calls[n - 1], all);
      assert Unhurried(cfg, calls[n - 1], states[n - 1]);
      OneMoreRun(cfg, calls, states, all, b, i, n);
    }
  }

  /** A claim left behind on a message comes to an end, delivered or dead-lettered by later
      smooth runs, if and only if some run fetches the message and none that does starts
      within the lease; otherwise it is held as before. */
  lemma HeldComesBackExactly(cfg: Config, all: Feed, calls: seq<TimedCall>, states: seq<State>, n: nat, b: nat, i: nat)
    requires WellFed(all) && OnlyOne(cfg, all, b, i) && TimedHistory(LeasedRunning(cfg), calls, states)
    requires n < |states|
    requires forall k | 0 <= k < |calls| :: Smooth(calls[k], all) && Unhurried(cfg, calls[k], states[k])
    requires Held(states[0].claims, KeyOf(cfg, all.boxes[b].messages[i]))
    ensures Stands(cfg, calls, states, all, b, i, n)
  {
    LeasedAnswers(cfg, all, b, i);
    StandsAfter(cfg, all, LeasedRunning(cfg), calls, states, n, b, i);
  }

  // ---- The dead-letter store that is down ----

  /** The state after the durable store failed for one rejected message, at this time. */
  function StoreWasDown(cfg: Config, msg: RawMessage, down: Time): State {
    LeasedRunOnce(cfg, Escapes.STORE_DOWN, Standing(down), OneMessage(msg, true), EMPTY_STATE).state
  }

  lemma {:induction false} StoreDownHolds(cfg: Config, msg: RawMessage, down: Time)
    requires cfg.durable && 1 <= cfg.maxMessageBytes && 0 < msg.cursor.order
    ensures var key, s := KeyOf(cfg, msg), StoreWasDown(cfg, msg, down);
            Held(s.claims, key) && StampOf(s, key) == down && s.cursors == map[] && s.emitted == [] && s.dead == []
  {
    var handle, start := LeasedHandling(cfg, Escapes.STORE_DOWN, Standing(down)), Counted(EMPTY_STATE);
    assert Yielding(cfg, start, KeyOf(cfg, msg), down) == start;
    Escapes.StoreDownVisit(cfg, start, msg);
    EveryVisit(cfg, Escapes.STORE_DOWN, start, msg);
    assert handle(start, msg) == LeasedProcess(cfg, Escapes.STORE_DOWN, Standing(down), start, msg);
    assert handle(start, msg).1.Escaped?;
    OneMessageFeed(cfg, handle, EMPTY_STATE, msg, true);
  }

  lemma OneMessageIsWellFed(cfg: Config, msg: RawMessage)
    requires 0 < msg.cursor.order
    ensures WellFed(OneMessage(msg, true)) && OnlyOne(cfg, OneMessage(msg, true), 0, 0)
  {
  }

  /** After that, later smooth runs bring the message to its end if and only if the first of
      them starts a lease after the failure; otherwise none ever does. */
  lemma {:induction false} StoreDownComesBackExactly(cfg: Config, msg: RawMessage, down: Time,
                                                     calls: seq<TimedCall>, states: seq<State>, n: nat)
    requires cfg.durable && 1 <= cfg.maxMessageBytes && 0 < msg.cursor.order
    requires TimedHistory(LeasedRunning(cfg), calls, states) && states[0] == StoreWasDown(cfg, msg, down)
    requires forall k | 0 <= k < |calls| ::
               && Smooth(calls[k], OneMessage(msg, true)) && calls[k].feed == OneMessage(msg, true)
               && Unhurried(cfg, calls[k], states[k])
    requires 0 < n < |states|
    ensures IsDone(states[n].claims, KeyOf(cfg, msg)) <==> calls[0].from - down >= Lease(cfg)
    ensures IsDone(states[n].claims, KeyOf(cfg, msg)) ==> Ended(states[n], KeyOf(cfg, msg))
  {
    var all := OneMessage(msg, true);
    StoreDownHolds(cfg, msg, down);
    OneMessageIsWellFed(cfg, msg);
    HeldComesBackExactly(cfg, all, calls, states, 1, 0, 0);
    HeldComesBackExactly(cfg, all, calls, states, n, 0, 0);
    assert Smooth(calls[0], all) && Fetches(cfg, calls, states, 0, 0, 0);
    assert FetchedBy(cfg, calls, states, 0, 0, 1) && FetchedBy(cfg, calls, states, 0, 0, n);
    forall k | 0 < k < n ensures !Fetches(cfg, calls, states, 0, 0, k) {
      HeldComesBackExactly(cfg, all, calls, states, k, 0, 0);
      assert FetchedBy(cfg, calls, states, 0, 0, k);
      assert Smooth(calls[k], all);
    }
  }
}
