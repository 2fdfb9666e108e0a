/** The low-water mark over leased claims: exactly when a run keeps it, and how far apart
    runs must start for it to survive whatever escapes. */
module LeasedLowWater {
  import opened Models
  import opened Observability
  import opened MemoryStores
  import opened Delivery
  import opened Visits
  import opened Runs
  import opened LowWater
  import opened HeldClaims
  import opened Scenarios
  import opened Leases
  import opened LeasedRuns

  /** No lease on a message of the feed runs at this time. */
  ghost predicate NoneInLease(cfg: Config, s: State, feed: Feed, now: Time) {
    forall b, i | 0 <= b < |feed.boxes| && 0 <= i < |feed.boxes[b].messages| ::
      !InLease(cfg, s, KeyOf(cfg, feed.boxes[b].messages[i]), now)
  }

  /** A clock that stands still. */
  function Standing(now: Time): Clock {
    (n, msg) => now
  }

  lemma StandingIsSteady(cfg: Config, s: State, feed: Feed, now: Time)
    ensures NotBefore(Standing(now), now) && SteadyFeed(cfg, s, Standing(now), now, feed)
  {
  }

  lemma FreedIsQuiescent(cfg: Config, s: State, feed: Feed, now: Time)
    ensures NoneInLease(cfg, s, feed, now) <==> Quiescent(cfg, FreedClaims(cfg, s, now), feed)
  {
  }

  lemma AlikeKeepsMark(cfg: Config, feed: Feed, now: Time, r: State, m: State)
    requires Alike(cfg, now, r, m)
    ensures BehindIsDone(cfg, r, feed) <==> BehindIsDone(cfg, m, feed)
    ensures forall key :: IsDone(r.claims, key) <==> IsDone(m.claims, key)
  {
  }

  /** From a store in which no lease on a message of the feed runs any more, every run keeps
      the low-water mark, however its clock goes on. */
  lemma {:induction false} RunIsSafe(cfg: Config, world: World, clock: Clock, feed: Feed, s: State, now: Time)
    requires WellFed(feed) && BehindIsDone(cfg, s, feed) && NoneInLease(cfg, s, feed, now) && NotBefore(clock, now)
    ensures var run := LeasedRunOnce(cfg, world, clock, feed, s);
            && Safe(cfg, s, run.state, feed)
            && (!run.escaped ==> NoneInLease(cfg, run.state, feed, now))
            && (run.escaped && 0.0 < Lease(cfg) ==> !NoneInLease(cfg, run.state, feed, now))
  {
    var freed, run := Freed(cfg, s, now), LeasedRunOnce(cfg, world, clock, feed, s);
    var plain := RunOnce(cfg, world, feed, freed);
    assert SteadyFeed(cfg, s, clock, now, feed) by {
      forall box, msg | box in feed.boxes && msg in box.messages
        ensures Steadily(cfg, s, clock, now, KeyOf(cfg, msg))
      {
        var b :| 0 <= b < |feed.boxes| && feed.boxes[b] == box;
        var i :| 0 <= i < |box.messages| && box.messages[i] == msg;
        assert !InLease(cfg, s, KeyOf(cfg, feed.boxes[b].messages[i]), now);
      }
    }
    LeasedRunIsARun(cfg, world, clock, feed, s, now);
    FreedIsQuiescent(cfg, s, feed, now);
    LowWaterMark(cfg, world, feed, freed);
    AlikeKeepsMark(cfg, feed, now, run.state, plain.state);
    FreedIsQuiescent(cfg, run.state, feed, now);
  }

  /** A smooth run during which no lease on its messages ends keeps the mark if and only if none
      runs when it starts. */
  lemma {:induction false} SmoothRunPassesExactly(cfg: Config, world: World, clock: Clock, feed: Feed, s: State,
                                                  now: Time)
    requires SmoothDay(world) && NotBefore(clock, now) && SteadyFeed(cfg, s, clock, now, feed)
    requires WellFed(feed) && BehindIsDone(cfg, s, feed)
    ensures BehindIsDone(cfg, LeasedRunOnce(cfg, world, clock, feed, s).state, feed) <==> NoneInLease(cfg, s, feed, now)
  {
    var run := LeasedRunOnce(cfg, world, clock, feed, s);
    if NoneInLease(cfg, s, feed, now) {
      RunIsSafe(cfg, world, clock, feed, s, now);
    } else {
      LeasedRunIsARun(cfg, world, clock, feed, s, now);
      FreedIsQuiescent(cfg, s, feed, now);
      HeldIsPassed(cfg, world, feed, Freed(cfg, s, now));
      AlikeKeepsMark(cfg, feed, now, run.state, RunOnce(cfg, world, feed, Freed(cfg, s, now)).state);
    }
  }

  /** The low-water mark survives a run that starts at `now`, in every world and however its
      clock goes on, if and only if no message of the feed is held within its lease then. */
  lemma {:induction false} LeasedLowWaterExactly(cfg: Config, feed: Feed, s: State, now: Time)
    requires WellFed(feed) && BehindIsDone(cfg, s, feed)
    ensures NoneInLease(cfg, s, feed, now)
       <==> forall world: World, clock: Clock | NotBefore(clock, now) ::
              BehindIsDone(cfg, LeasedRunOnce(cfg, world, clock, feed, s).state, feed)
  {
    if NoneInLease(cfg, s, feed, now) {
      forall world: World, clock: Clock | NotBefore(clock, now)
        ensures BehindIsDone(cfg, LeasedRunOnce(cfg, world, clock, feed, s).state, feed)
      {
        RunIsSafe(cfg, world, clock, feed, s, now);
      }
    } else {
      var world: World := (n, msg) => SMOOTH_VISIT;
      StandingIsSteady(cfg, s, feed, now);
      SmoothRunPassesExactly(cfg, world, Standing(now), feed, s, now);
    }
  }

  // ---- When claims were won ----

  /** Every claim held afterwards was held before, or was won between these times. */
  ghost predicate StampedWithin(s: State, t: State, from: Time, to: Time) {
    forall key | Held(t.claims, key) ::
      (Held(s.claims, key) && StampOf(t, key) == StampOf(s, key)) || from <= StampOf(t, key) <= to
  }

  ghost predicate Stamping(handle: Handler, from: Time, to: Time) {
    forall s, msg :: StampedWithin(s, handle(s, msg).0, from, to)
  }

  lemma {:induction false} VisitStamps(cfg: Config, world: World, clock: Clock, s: State, msg: RawMessage)
    ensures var reading := clock(s.visits, msg);
            StampedWithin(s, LeasedProcess(cfg, world, clock, s, msg).0, reading, reading)
  {
    var key, reading := KeyOf(cfg, msg), clock(s.visits, msg);
    LeasedVisitLeaves(cfg, world, clock, s, msg);
    var y := Yielding(cfg, s, key, reading);
    ClaimsLeftElsewhere(cfg, world(s.visits, msg), y.claims, key, LeasedProcess(cfg, world, clock, s, msg).1);
    assert SameElsewhere(s.claims, y.claims, key);
  }

  lemma LeasedStamping(cfg: Config, world: World, clock: Clock, from: Time, to: Time)
    requires forall n, msg :: from <= clock(n, msg) <= to
    ensures Stamping(LeasedHandling(cfg, world, clock), from, to)
  {
    forall s, msg ensures StampedWithin(s, LeasedHandling(cfg, world, clock)(s, msg).0, from, to) {
      VisitStamps(cfg, world, clock, s, msg);
    }
  }

  lemma {:induction false} StreamStamps(cfg: Config, handle: Handler, s: State, stream: StreamRef,
                                        batch: seq<RawMessage>, blocked: bool, from: Time, to: Time)
    requires Stamping(handle, from, to)
    ensures StampedWithin(s, RunStream(cfg, handle, s, stream, batch, blocked).state, from, to)
    decreases |batch|
  {
    if batch != [] {
      var (next, step) := Advance(cfg, handle, s, stream, batch[0], blocked);
      assert StampedWithin(Counted(s), handle(Counted(s), batch[0]).0, from, to);
      assert StampedWithin(s, next, from, to);
      if !step.Escaped? {
        StreamStamps(cfg, handle, next, stream, batch[1..], blocked || step.Pending?, from, to);
      }
    }
  }

  lemma {:induction false} BoxesStamp(cfg: Config, handle: Handler, feed: Feed, s: State, boxes: seq<Mailbox>,
                                      from: Time, to: Time)
    requires Stamping(handle, from, to)
    ensures StampedWithin(s, RunBoxes(cfg, handle, feed, s, boxes).state, from, to)
    decreases |boxes|
  {
    if boxes != [] {
      var batch := Fetch(feed, cfg, boxes[0], s.cursors);
      StreamStamps(cfg, handle, s, boxes[0].stream, batch, false, from, to);
      var first := RunStream(cfg, handle, s, boxes[0].stream, batch, false);
      if !first.escaped {
        BoxesStamp(cfg, handle, feed, first.state, boxes[1..], from, to);
      }
    }
  }

  lemma RunStamps(cfg: Config, world: World, clock: Clock, feed: Feed, s: State, from: Time, to: Time)
    requires forall n, msg :: from <= clock(n, msg) <= to
    ensures StampedWithin(s, LeasedRunOnce(cfg, world, clock, feed, s).state, from, to)
  {
    LeasedStamping(cfg, world, clock, from, to);
    BoxesStamp(cfg, LeasedHandling(cfg, world, clock), feed, s.(report := EMPTY_REPORT), feed.boxes, from, to);
  }

  // ---- After an escape ----

  /** An exception that leaves a run at `first` costs the mark on the next smooth run at
      `second` if and only if that one starts within the lease. */
  lemma {:induction false} EscapeIsPassedExactly(cfg: Config, world: World, later: World, feed: Feed, s: State,
                                                 first: Time, second: Time)
    requires WellFed(feed) && BehindIsDone(cfg, s, feed) && NoneInLease(cfg, s, feed, first)
    requires first <= second && SmoothDay(later)
    ensures var run := LeasedRunOnce(cfg, world, Standing(first), feed, s);
            run.escaped && second - first < Lease(cfg)
            <==> !BehindIsDone(cfg, LeasedRunOnce(cfg, later, Standing(second), feed, run.state).state, feed)
  {
    var run := LeasedRunOnce(cfg, world, Standing(first), feed, s);
    RunIsSafe(cfg, world, Standing(first), feed, s, first);
    RunStamps(cfg, world, Standing(first), feed, s, first, first);
    StandingIsSteady(cfg, run.state, feed, second);
    SmoothRunPassesExactly(cfg, later, Standing(second), feed, run.state, second);
    if run.escaped && second - first < Lease(cfg) {
      var b, i :| 0 <= b < |feed.boxes| && 0 <= i < |feed.boxes[b].messages|
                  && InLease(cfg, run.state, KeyOf(cfg, feed.boxes[b].messages[i]), first);
      assert InLease(cfg, run.state, KeyOf(cfg, feed.boxes[b].messages[i]), second);
    }
  }

  // ---- Histories ----

  /** A run, and the times its clock shows while it lasts. */
  datatype TimedCall = TimedCall(world: World, feed: Feed, clock: Clock, from: Time, to: Time)

  type TimedNext = (TimedCall, State) -> State

  function LeasedRunning(cfg: Config): TimedNext {
    (call: TimedCall, s: State) => LeasedRunOnce(cfg, call.world, call.clock, call.feed, s).state
  }

  ghost predicate TimedHistory(next: TimedNext, calls: seq<TimedCall>, states: seq<State>) {
    |states| == |calls| + 1 && forall k | 0 <= k < |calls| :: states[k + 1] == next(calls[k], states[k])
  }

  ghost predicate OnTime(call: TimedCall) {
    forall n, msg :: call.from <= call.clock(n, msg) <= call.to
  }

  /** Each run starts no earlier than the one before ended, and a lease after it ended. */
  ghost predicate Spaced(cfg: Config, calls: seq<TimedCall>) {
    && (forall k | 0 <= k < |calls| :: OnTime(calls[k]) && calls[k].from <= calls[k].to)
    && (forall k | 0 < k < |calls| ::
          calls[k - 1].to <= calls[k].from && calls[k - 1].to + Lease(cfg) <= calls[k].from)
  }

  /** Nobody's lease runs at this time. */
  ghost predicate AllOver(cfg: Config, s: State, now: Time) {
    forall key :: !InLease(cfg, s, key, now)
  }

  lemma StampsAreOver(cfg: Config, s: State, t: State, from: Time, to: Time, next: Time)
    requires StampedWithin(s, t, from, to) && AllOver(cfg, s, from)
    requires from <= to <= next && to + Lease(cfg) <= next
    ensures AllOver(cfg, t, next)
  {
    forall key ensures !InLease(cfg, t, key, next) {
      assert !InLease(cfg, s, key, from);
    }
  }

  /** If every run starts a lease after the one before it ended, the low-water mark holds
      before every run of every history, whatever escapes from any of them. */
  lemma {:induction false} SpacedRunsKeepLowWater(cfg: Config, feed: Feed, calls: seq<TimedCall>, states: seq<State>,
                                                  i: nat)
    requires WellFed(feed) && TimedHistory(LeasedRunning(cfg), calls, states) && Spaced(cfg, calls)
    requires forall call | call in calls :: call.feed == feed
    requires i < |states| && BehindIsDone(cfg, states[0], feed)
    requires calls != [] ==> AllOver(cfg, states[0], calls[0].from)
    ensures Safe(cfg, states[0], states[i], feed) && (i < |calls| ==> AllOver(cfg, states[i], calls[i].from))
  {
    if i > 0 {
      SpacedRunsKeepLowWater(cfg, feed, calls, states, i - 1);
      var call, before := calls[i - 1], states[i - 1];
      assert call in calls && OnTime(call) && call.from <= call.to;
      assert states[i - 1 + 1] == LeasedRunning(cfg)(call, before);
      assert NotBefore(call.clock, call.from);
      RunIsSafe(cfg, call.world, call.clock, feed, before, call.from);
      SafeTransitive(cfg, states[0], before, states[i], feed);
      if i < |calls| {
        RunStamps(cfg, call.world, call.clock, feed, before, call.from, call.to);
        StampsAreOver(cfg, before, states[i], call.from, call.to, calls[i].from);
      }
    }
  }
}
