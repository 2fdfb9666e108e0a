/** Runs over a claim store that keeps leases, with time passing in and between them. */
module LeasedRuns {
  import opened Models
  import opened Observability
  import opened MemoryStores
  import opened Delivery
  import opened Visits
  import opened Runs
  import opened LowWater
  import opened HeldClaims
  import opened Scenarios
  import opened Leases

  // ---- A leased run is a plain run from the store without its lapsed claims ----

  function FreedClaims(cfg: Config, s: State, now: Time): Claims {
    map key | key in s.claims ::
      if Lapsed(cfg, s, key, now) then s.claims[key].(claimed := false) else s.claims[key]
  }

  /** The state without the claims that have lapsed by now. */
  function Freed(cfg: Config, s: State, now: Time): State {
    s.(claims := FreedClaims(cfg, s, now))
  }

  /** The plain state is the leased one without its lapsed claims. */
  ghost predicate Simulates(cfg: Config, now: Time, r: State, m: State) {
    m == Rehung(r, FreedClaims(cfg, r, now), m.stamps)
  }

  ghost predicate SameButLapsed(cfg: Config, now: Time, r: State, claims: Claims) {
    forall key :: (key in claims <==> key in r.claims)
      && (key in claims ==> claims[key] == r.claims[key]
                            || (Lapsed(cfg, r, key, now) && claims[key] == r.claims[key].(claimed := false)))
  }

  /** The states differ at most in claims that have lapsed. */
  ghost predicate Alike(cfg: Config, now: Time, r: State, m: State) {
    m == Rehung(r, m.claims, m.stamps) && SameButLapsed(cfg, now, r, m.claims)
  }

  lemma SimulatesIsAlike(cfg: Config, now: Time, r: State, m: State)
    requires Simulates(cfg, now, r, m)
    ensures Alike(cfg, now, r, m)
  {
  }

  /** The clock never shows a time before `now`. */
  ghost predicate NotBefore(clock: Clock, now: Time) {
    forall n, msg :: now <= clock(n, msg)
  }

  /** If the key's lease runs now, it does not end while the clock is read. */
  ghost predicate Steadily(cfg: Config, s: State, clock: Clock, now: Time, key: string) {
    InLease(cfg, s, key, now) ==> forall n, msg :: !LeaseOver(cfg, s, key, clock(n, msg))
  }

  predicate SameAt(left: Claims, right: Claims, key: string) {
    (key in left <==> key in right) && (key in left ==> left[key] == right[key])
  }

  lemma ClaimsLeftAlike(cfg: Config, v: Visit, left: Claims, right: Claims, key: string, step: Step)
    requires SameAt(left, right, key)
    ensures SameAt(ClaimsLeft(cfg, v, left, key, step), ClaimsLeft(cfg, v, right, key, step), key)
  {
  }

  lemma ClaimsLeftElsewhere(cfg: Config, v: Visit, claims: Claims, key: string, step: Step)
    ensures var left := ClaimsLeft(cfg, v, claims, key, step);
            && SameElsewhere(claims, left, key)
            && (Claimable(claims, key) && !step.Escaped? ==> !Held(left, key))
            && (!Claimable(claims, key) ==> left == claims)
  {
  }

  /** A visit's claim is answered alike on both sides. */
  lemma YieldsAlike(cfg: Config, clock: Clock, now: Time, r: State, m: State, key: string, reading: Time)
    requires Simulates(cfg, now, r, m) && now <= reading
    requires InLease(cfg, r, key, now) ==> !LeaseOver(cfg, r, key, reading)
    ensures SameAt(Yielding(cfg, r, key, reading).claims, m.claims, key)
    ensures SameElsewhere(r.claims, Yielding(cfg, r, key, reading).claims, key)
  {
  }

  /** What the visit leaves stays alike. */
  lemma LeavesAlike(cfg: Config, now: Time, r: State, m: State, key: string, t: State, u: State, step: Step)
    requires Simulates(cfg, now, r, m) && u == Rehung(t, u.claims, u.stamps) && SameAt(t.claims, u.claims, key)
    requires SameElsewhere(r.claims, t.claims, key) && SameElsewhere(m.claims, u.claims, key)
    requires forall k | k != key :: StampOf(t, k) == StampOf(r, k)
    ensures Alike(cfg, now, t, u)
    ensures !Held(t.claims, key) || !LeaseOver(cfg, t, key, now) ==> Simulates(cfg, now, t, u)
  {
    forall k ensures k in u.claims <==> k in t.claims
      ensures k in u.claims && k != key ==> u.claims[k] == FreedClaims(cfg, t, now)[k]
    {
    }
    if !Held(t.claims, key) || !LeaseOver(cfg, t, key, now) {
      assert u.claims == FreedClaims(cfg, t, now);
    }
  }

  /** One visit on both sides. */
  ghost predicate TurnAlike(cfg: Config, clock: Clock, now: Time, r: State, turn: (State, Step), plain: (State, Step)) {
    && plain.1 == turn.1 && Alike(cfg, now, turn.0, plain.0)
    && (!turn.1.Escaped? || 0.0 < Lease(cfg) ==> Simulates(cfg, now, turn.0, plain.0))
    && (!turn.1.Escaped? ==>
          forall key | Steadily(cfg, r, clock, now, key) :: Steadily(cfg, turn.0, clock, now, key))
  }

  lemma SteadinessStays(cfg: Config, clock: Clock, now: Time, r: State, t: State, key: string, visited: string)
    requires Steadily(cfg, r, clock, now, key) && SameElsewhere(r.claims, t.claims, visited)
    requires forall k | k != visited :: StampOf(t, k) == StampOf(r, k)
    requires key == visited ==> !Held(t.claims, key)
    ensures Steadily(cfg, t, clock, now, key)
  {
  }

  /** Both visits end alike and differ at most in the claims. */
  lemma {:induction false} VisitsAreTwins(cfg: Config, world: World, clock: Clock, now: Time, r: State, m: State,
                                          msg: RawMessage)
    requires now <= clock(r.visits, msg) && Simulates(cfg, now, r, m)
    requires Steadily(cfg, r, clock, now, KeyOf(cfg, msg))
    ensures var key, y := KeyOf(cfg, msg), Yielding(cfg, r, KeyOf(cfg, msg), clock(r.visits, msg));
            var (t, step) := LeasedProcess(cfg, world, clock, r, msg);
            && SameAt(y.claims, m.claims, key) && SameElsewhere(r.claims, y.claims, key)
            && Process(cfg, world, m, msg)
                   == (Rehung(t, ClaimsLeft(cfg, world(r.visits, msg), m.claims, key, step), m.stamps), step)
  {
    var key, reading := KeyOf(cfg, msg), clock(r.visits, msg);
    var y := Yielding(cfg, r, key, reading);
    YieldsAlike(cfg, clock, now, r, m, key, reading);
    assert m == Rehung(y, m.claims, m.stamps);
    ProcessRehung(cfg, world, y, msg, m.claims, m.stamps);
  }

  lemma {:induction false} VisitSimulates(cfg: Config, world: World, clock: Clock, now: Time, r: State, m: State,
                                          msg: RawMessage)
    requires now <= clock(r.visits, msg) && Simulates(cfg, now, r, m)
    requires Steadily(cfg, r, clock, now, KeyOf(cfg, msg))
    ensures TurnAlike(cfg, clock, now, r, LeasedProcess(cfg, world, clock, r, msg), Process(cfg, world, m, msg))
  {
    var key, v := KeyOf(cfg, msg), world(r.visits, msg);
    var y := Yielding(cfg, r, key, clock(r.visits, msg));
    var (t, step) := LeasedProcess(cfg, world, clock, r, msg);
    var u := Process(cfg, world, m, msg).0;
    VisitsAreTwins(cfg, world, clock, now, r, m, msg);
    LeasedVisitLeaves(cfg, world, clock, r, msg);
    ClaimsLeftAlike(cfg, v, y.claims, m.claims, key, step);
    ClaimsLeftElsewhere(cfg, v, y.claims, key, step);
    ClaimsLeftElsewhere(cfg, v, m.claims, key, step);
    if step == Terminal(Duplicate) {
      SimulatesIsAlike(cfg, now, t, u);
    } else {
      LeavesAlike(cfg, now, r, m, key, t, u, step);
      forall k | Steadily(cfg, r, clock, now, k) && !step.Escaped? ensures Steadily(cfg, t, clock, now, k) {
        SteadinessStays(cfg, clock, now, r, t, k, key);
      }
    }
  }

  /** A handler over leased claims that does what one over plain claims does. */
  ghost predicate Mirrors(cfg: Config, clock: Clock, now: Time, leased: Handler, plain: Handler) {
    forall r, m, msg {:trigger leased(r, msg), plain(m, msg)}
      | Simulates(cfg, now, r, m) && Steadily(cfg, r, clock, now, KeyOf(cfg, msg)) ::
      TurnAlike(cfg, clock, now, r, leased(r, msg), plain(m, msg))
  }

  lemma ProcessMirrors(cfg: Config, world: World, clock: Clock, now: Time)
    requires NotBefore(clock, now)
    ensures Mirrors(cfg, clock, now, LeasedHandling(cfg, world, clock), Handling(cfg, world))
  {
    forall r, m, msg | Simulates(cfg, now, r, m) && Steadily(cfg, r, clock, now, KeyOf(cfg, msg))
      ensures TurnAlike(cfg, clock, now, r, LeasedHandling(cfg, world, clock)(r, msg), Handling(cfg, world)(m, msg))
    {
      assert now <= clock(r.visits, msg);
      VisitSimulates(cfg, world, clock, now, r, m, msg);
    }
  }

  /** Two runs, from these states on. */
  ghost predicate RunsAlike(cfg: Config, clock: Clock, now: Time, r: State, run: Run, plain: Run) {
    && plain.steps == run.steps && plain.escaped == run.escaped && Alike(cfg, now, run.state, plain.state)
    && (!run.escaped || 0.0 < Lease(cfg) ==> Simulates(cfg, now, run.state, plain.state))
    && (!run.escaped ==>
          forall key | Steadily(cfg, r, clock, now, key) :: Steadily(cfg, run.state, clock, now, key))
  }

  lemma BookmarksMirror(cfg: Config, clock: Clock, now: Time, r: State, t: State, u: State, step: Step,
                        stream: StreamRef, msg: RawMessage, blocked: bool)
    requires TurnAlike(cfg, clock, now, r, (t, step), (u, step))
    ensures TurnAlike(cfg, clock, now, r, (Bookmarked(cfg, t, stream, msg, step, blocked), step),
                      (Bookmarked(cfg, u, stream, msg, step, blocked), step))
  {
  }

  lemma CountedMirrors(cfg: Config, clock: Clock, now: Time, r: State, m: State)
    requires Simulates(cfg, now, r, m)
    ensures Simulates(cfg, now, Counted(r), Counted(m))
    ensures forall key :: Steadily(cfg, Counted(r), clock, now, key) <==> Steadily(cfg, r, clock, now, key)
  {
  }

  lemma TurnsMirror(cfg: Config, clock: Clock, now: Time, leased: Handler, plain: Handler, r: State, m: State,
                    stream: StreamRef, msg: RawMessage, blocked: bool)
    requires Mirrors(cfg, clock, now, leased, plain)
    requires Simulates(cfg, now, r, m) && Steadily(cfg, r, clock, now, KeyOf(cfg, msg))
    ensures TurnAlike(cfg, clock, now, r, Advance(cfg, leased, r, stream, msg, blocked),
                      Advance(cfg, plain, m, stream, msg, blocked))
  {
    var (t, step) := leased(Counted(r), msg);
    var u := plain(Counted(m), msg).0;
    CountedMirrors(cfg, clock, now, r, m);
    assert TurnAlike(cfg, clock, now, Counted(r), leased(Counted(r), msg), plain(Counted(m), msg));
    assert TurnAlike(cfg, clock, now, r, (t, step), (u, step));
    BookmarksMirror(cfg, clock, now, r, t, u, step, stream, msg, blocked);
  }

  lemma {:induction false} StreamsMirror(cfg: Config, clock: Clock, now: Time, leased: Handler, plain: Handler,
                                         r: State, m: State, stream: StreamRef, batch: seq<RawMessage>, blocked: bool)
    requires Mirrors(cfg, clock, now, leased, plain) && Simulates(cfg, now, r, m)
    requires forall msg | msg in batch :: Steadily(cfg, r, clock, now, KeyOf(cfg, msg))
    ensures RunsAlike(cfg, clock, now, r, RunStream(cfg, leased, r, stream, batch, blocked),
                      RunStream(cfg, plain, m, stream, batch, blocked))
    decreases |batch|
  {
    if batch == [] {
      SimulatesIsAlike(cfg, now, r, m);
    } else {
      TurnsMirror(cfg, clock, now, leased, plain, r, m, stream, batch[0], blocked);
      var (t, step) := Advance(cfg, leased, r, stream, batch[0], blocked);
      var u := Advance(cfg, plain, m, stream, batch[0], blocked).0;
      if !step.Escaped? {
        StreamsMirror(cfg, clock, now, leased, plain, t, u, stream, batch[1..], blocked || step.Pending?);
      }
    }
  }

  lemma {:induction false} BoxesMirror(cfg: Config, clock: Clock, now: Time, leased: Handler, plain: Handler,
                                       feed: Feed, r: State, m: State, boxes: seq<Mailbox>)
    requires Mirrors(cfg, clock, now, leased, plain) && Simulates(cfg, now, r, m)
    requires forall box, msg | box in boxes && msg in box.messages :: Steadily(cfg, r, clock, now, KeyOf(cfg, msg))
    ensures RunsAlike(cfg, clock, now, r, RunBoxes(cfg, leased, feed, r, boxes), RunBoxes(cfg, plain, feed, m, boxes))
    decreases |boxes|
  {
    if boxes == [] {
      SimulatesIsAlike(cfg, now, r, m);
    } else {
      var batch := Fetch(feed, cfg, boxes[0], r.cursors);
      assert batch == Fetch(feed, cfg, boxes[0], m.cursors);
      forall msg | msg in batch ensures Steadily(cfg, r, clock, now, KeyOf(cfg, msg)) {
        assert boxes[0] in boxes && msg in boxes[0].messages;
      }
      StreamsMirror(cfg, clock, now, leased, plain, r, m, boxes[0].stream, batch, false);
      var first := RunStream(cfg, leased, r, boxes[0].stream, batch, false);
      if !first.escaped {
        BoxesMirror(cfg, clock, now, leased, plain, feed, first.state,
                    RunStream(cfg, plain, m, boxes[0].stream, batch, false).state, boxes[1..]);
      }
    }
  }

  /** No lease on a message of the feed ends while the clock is read. */
  ghost predicate SteadyFeed(cfg: Config, s: State, clock: Clock, now: Time, feed: Feed) {
    forall box, msg | box in feed.boxes && msg in box.messages :: Steadily(cfg, s, clock, now, KeyOf(cfg, msg))
  }

  /** A run over leased claims does, step for step, what a run over plain claims does from the
      store without the claims that have lapsed when it starts, as long as no lease on its
      messages ends while it is under way. */
  lemma {:induction false} LeasedRunIsARun(cfg: Config, world: World, clock: Clock, feed: Feed, s: State, now: Time)
    requires NotBefore(clock, now) && SteadyFeed(cfg, s, clock, now, feed)
    ensures var run := LeasedRunOnce(cfg, world, clock, feed, s);
            var plain := RunOnce(cfg, world, feed, Freed(cfg, s, now));
            && plain.steps == run.steps && plain.escaped == run.escaped && Alike(cfg, now, run.state, plain.state)
            && (!run.escaped || 0.0 < Lease(cfg) ==> Simulates(cfg, now, run.state, plain.state))
  {
    var start := s.(report := EMPTY_REPORT);
    ProcessMirrors(cfg, world, clock, now);
    forall key | Steadily(cfg, s, clock, now, key) ensures Steadily(cfg, start, clock, now, key) {
    }
    assert FreedClaims(cfg, s, now) == FreedClaims(cfg, start, now);
    assert Simulates(cfg, now, start, Freed(cfg, s, now).(report := EMPTY_REPORT));
    BoxesMirror(cfg, clock, now, LeasedHandling(cfg, world, clock), Handling(cfg, world), feed, start,
                Freed(cfg, s, now).(report := EMPTY_REPORT), feed.boxes);
  }
}
