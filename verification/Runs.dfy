/** Whole runs: the states they pass through, and what their reports account for. */
module Runs {
  import opened Models
  import opened Observability
  import opened MemoryStores
  import opened Delivery
  import opened Visits
  import opened VisitTrails

  // ---- Every state a run passes through ----

  /** The states inside each visit. */
  type Insides = (State, RawMessage) -> seq<State>

  function InsidesOf(cfg: Config, world: World): Insides {
    (s: State, msg: RawMessage) => VisitTrail(cfg, world, s, msg)
  }

  /** The states at every message boundary, inside every visit, and between processing a message
      and moving the cursor. */
  ghost function StreamTrail(cfg: Config, handle: Handler, insides: Insides, s: State, stream: StreamRef,
                             batch: seq<RawMessage>, blocked: bool): seq<State>
    decreases |batch|
  {
    if batch == [] then [s]
    else
      var mid := handle(Counted(s), batch[0]).0;
      var (next, step) := Advance(cfg, handle, s, stream, batch[0], blocked);
      [s] + insides(Counted(s), batch[0]) + [mid] +
      if step.Escaped? then [next]
      else StreamTrail(cfg, handle, insides, next, stream, batch[1..], blocked || step.Pending?)
  }

  ghost function BoxesTrail(cfg: Config, handle: Handler, insides: Insides, feed: Feed, s: State,
                            boxes: seq<Mailbox>): seq<State>
    decreases |boxes|
  {
    if boxes == [] then [s]
    else
      var batch := Fetch(feed, cfg, boxes[0], s.cursors);
      var first := RunStream(cfg, handle, s, boxes[0].stream, batch, false);
      StreamTrail(cfg, handle, insides, s, boxes[0].stream, batch, false) +
      if first.escaped then [] else BoxesTrail(cfg, handle, insides, feed, first.state, boxes[1..])
  }

  /** Every state of one `run_once`. */
  ghost function RunTrail(cfg: Config, world: World, feed: Feed, s: State): seq<State> {
    BoxesTrail(cfg, Handling(cfg, world), InsidesOf(cfg, world), feed, s.(report := EMPTY_REPORT), feed.boxes)
  }

  /** Inside its visits the run keeps to what a visit may pass through. */
  ghost predicate Careful(cfg: Config, insides: Insides) {
    forall s, msg, t | t in insides(s, msg) :: Passes(cfg, s, msg, t)
  }

  lemma ProcessIsCareful(cfg: Config, world: World)
    ensures Careful(cfg, InsidesOf(cfg, world))
  {
    forall s, msg, t | t in InsidesOf(cfg, world)(s, msg) ensures Passes(cfg, s, msg, t) {
      VisitPasses(cfg, world, s, msg);
    }
  }

  // ---- What a run needs of its handler ----

  /** The handler keeps to what a visit may change. */
  ghost predicate Sound(cfg: Config, handle: Handler) {
    forall s, msg :: Visited(cfg, s, msg, handle(s, msg).0, handle(s, msg).1)
  }

  lemma ProcessIsSound(cfg: Config, world: World)
    ensures Sound(cfg, Handling(cfg, world))
  {
    forall s, msg
      ensures Visited(cfg, s, msg, Handling(cfg, world)(s, msg).0, Handling(cfg, world)(s, msg).1)
    {
      EveryVisit(cfg, world, s, msg);
    }
  }

  // ---- Accounting ----

  function Pendings(steps: seq<Step>): nat {
    if steps == [] then 0 else (if steps[0].Pending? then 1 else 0) + Pendings(steps[1..])
  }

  lemma {:induction false} PendingsAdd(left: seq<Step>, right: seq<Step>)
    ensures Pendings(left + right) == Pendings(left) + Pendings(right)
  {
    if left == [] {
      assert left + right == right;
    } else {
      PendingsAdd(left[1..], right);
      assert (left + right)[1..] == left[1..] + right;
    }
  }

  lemma {:induction false} PendingsNone(steps: seq<Step>)
    ensures Pendings(steps) == 0 <==> Pending !in steps
  {
    if steps != [] {
      PendingsNone(steps[1..]);
      assert steps == [steps[0]] + steps[1..];
    }
  }

  /** Between two reports of one run: as many fetched as steps taken, one trace for each
      step that is neither pending nor escaped. */
  ghost predicate Accounted(before: Report, after: Report, steps: seq<Step>, escaped: bool) {
    && after.fetched == before.fetched + |steps|
    && |after.traces| + Pendings(steps) + (if escaped then 1 else 0) == |before.traces| + |steps|
    && (Consistent(before) ==> Consistent(after))
    && (escaped <==> Escaped in steps)
  }

  lemma EveryTurn(cfg: Config, handle: Handler, s: State, stream: StreamRef, msg: RawMessage, blocked: bool)
    requires Sound(cfg, handle)
    ensures var (next, step) := Advance(cfg, handle, s, stream, msg, blocked);
            var mid := handle(Counted(s), msg).0;
            Visited(cfg, Counted(s), msg, mid, step) && next == Bookmarked(cfg, mid, stream, msg, step, blocked)
  {
    assert Visited(cfg, Counted(s), msg, handle(Counted(s), msg).0, handle(Counted(s), msg).1);
  }

  lemma TurnAccounts(cfg: Config, s: State, msg: RawMessage, mid: State, step: Step)
    requires Visited(cfg, Counted(s), msg, mid, step)
    ensures Accounted(s.report, mid.report, [step], step.Escaped?)
  {
    assert Consistent(s.report) ==> Consistent(Counted(s).report);
  }

  lemma AccountsCompose(r0: Report, r1: Report, r2: Report, step: Step, rest: seq<Step>, escaped: bool)
    requires Accounted(r0, r1, [step], false) && Accounted(r1, r2, rest, escaped)
    ensures Accounted(r0, r2, [step] + rest, escaped)
  {
    PendingsAdd([step], rest);
  }

  lemma {:induction false} StreamAccounts(cfg: Config, handle: Handler, s: State, stream: StreamRef,
                                          batch: seq<RawMessage>, blocked: bool)
    requires Sound(cfg, handle)
    ensures var run := RunStream(cfg, handle, s, stream, batch, blocked);
            Accounted(s.report, run.state.report, run.steps, run.escaped)
    decreases |batch|
  {
    if batch != [] {
      var (next, step) := Advance(cfg, handle, s, stream, batch[0], blocked);
      EveryTurn(cfg, handle, s, stream, batch[0], blocked);
      TurnAccounts(cfg, s, batch[0], handle(Counted(s), batch[0]).0, step);
      if !step.Escaped? {
        var rest := RunStream(cfg, handle, next, stream, batch[1..], blocked || step.Pending?);
        StreamAccounts(cfg, handle, next, stream, batch[1..], blocked || step.Pending?);
        AccountsCompose(s.report, next.report, rest.state.report, step, rest.steps, rest.escaped);
      }
    }
  }

  lemma {:induction false} BoxesAccount(cfg: Config, handle: Handler, feed: Feed, s: State, boxes: seq<Mailbox>)
    requires Sound(cfg, handle)
    ensures var run := RunBoxes(cfg, handle, feed, s, boxes);
            Accounted(s.report, run.state.report, run.steps, run.escaped)
    decreases |boxes|
  {
    if boxes != [] {
      var batch := Fetch(feed, cfg, boxes[0], s.cursors);
      var first := RunStream(cfg, handle, s, boxes[0].stream, batch, false);
      StreamAccounts(cfg, handle, s, boxes[0].stream, batch, false);
      if !first.escaped {
        BoxesAccount(cfg, handle, feed, first.state, boxes[1..]);
        PendingsAdd(first.steps, RunBoxes(cfg, handle, feed, first.state, boxes[1..]).steps);
      }
    }
  }

  lemma FeedAccounting(cfg: Config, handle: Handler, feed: Feed, s: State)
    requires Sound(cfg, handle)
    ensures var run := RunFeed(cfg, handle, feed, s);
            var r := run.state.report;
            && r.fetched == |run.steps|
            && r.fetched - r.Terminal() == Pendings(run.steps) + (if run.escaped then 1 else 0)
            && Consistent(r)
            && (r.AllTerminal() <==> Pending !in run.steps && !run.escaped)
  {
    var run := RunFeed(cfg, handle, feed, s);
    BoxesAccount(cfg, handle, feed, s.(report := EMPTY_REPORT), feed.boxes);
    assert Consistent(EMPTY_REPORT);
    TerminalIsTraced(run.state.report);
    PendingsNone(run.steps);
  }

  /** The report of any run: fetched less the four disposition counters is the number of
      pending messages (and the one whose exception ended the run), every counter is the
      number of traces with that disposition, and strips are counted on their own. */
  lemma RunAccounting(cfg: Config, world: World, feed: Feed, s: State)
    ensures var run := RunOnce(cfg, world, feed, s);
            var r := run.state.report;
            && r.fetched == |run.steps|
            && r.fetched - r.Terminal() == Pendings(run.steps) + (if run.escaped then 1 else 0)
            && Consistent(r)
            && (r.AllTerminal() <==> Pending !in run.steps && !run.escaped)
  {
    ProcessIsSound(cfg, world);
    FeedAccounting(cfg, Handling(cfg, world), feed, s);
  }
}
