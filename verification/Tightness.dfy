/** The bound on convergence cannot be lowered: one message that always fails for now is
    still undone after every smaller number of runs. */
module Tightness {
  import opened Models
  import opened Observability
  import opened MemoryStores
  import opened Delivery
  import opened Visits
  import opened Convergence
  import opened Scenarios

  /** Nothing escapes, and no work ever succeeds. */
  const WORLD: World := (n, msg) => STUMBLE

  const MESSAGE := RawMessage("memory", "m", StreamRef("box", None), 1, 0.0, Cursor("c", 1), [], "")

  const FEED := OneMessage(MESSAGE, true)

  /** Tried `r` times, and free to be tried again. */
  predicate StillOpen(cfg: Config, s: State, r: nat) {
    var key := KeyOf(cfg, MESSAGE);
    s.cursors == map[] && Claimable(s.claims, key) && Attempts(s.claims, key) == r
  }

  lemma {:induction false} TurnLeavesOpen(cfg: Config, s: State, r: nat)
    requires 1 <= cfg.maxMessageBytes && r + 1 < cfg.maxAttempts && StillOpen(cfg, s, r)
    ensures var (next, step) := Advance(cfg, Handling(cfg, WORLD), s, MESSAGE.stream, MESSAGE, false);
            step.Pending? && StillOpen(cfg, next, r + 1)
  {
    var start := Counted(s);
    FailingAttempt(cfg, STUMBLE, Entered(cfg, start, MESSAGE), MESSAGE);
    EveryVisit(cfg, WORLD, start, MESSAGE);
    assert Process(cfg, WORLD, start, MESSAGE) == Attempt(cfg, STUMBLE, Entered(cfg, start, MESSAGE), MESSAGE);
  }

  lemma {:induction false} RunLeavesOpen(cfg: Config, s: State, r: nat)
    requires 1 <= cfg.maxMessageBytes && r + 1 < cfg.maxAttempts && StillOpen(cfg, s, r)
    ensures StillOpen(cfg, RunFeed(cfg, Handling(cfg, WORLD), FEED, s).state, r + 1)
  {
    var handle, start := Handling(cfg, WORLD), s.(report := EMPTY_REPORT);
    TurnLeavesOpen(cfg, start, r);
    OneMessageFeed(cfg, handle, s, MESSAGE, true);
  }

  /** A handler whose runs leave the message open. */
  ghost predicate LeavesOpen(cfg: Config, handle: Handler) {
    forall s, r: nat | r + 1 < cfg.maxAttempts && StillOpen(cfg, s, r) ::
      StillOpen(cfg, RunFeed(cfg, handle, FEED, s).state, r + 1)
  }

  lemma {:induction false} RunsLeaveOpen(cfg: Config, handle: Handler, n: nat)
    requires LeavesOpen(cfg, handle) && 1 <= n < cfg.maxAttempts
    ensures StillOpen(cfg, RunMany(cfg, handle, FEED, EMPTY_STATE, n).state, n)
  {
    if n == 1 {
      assert StillOpen(cfg, EMPTY_STATE, 0);
    } else {
      RunsLeaveOpen(cfg, handle, n - 1);
      assert StillOpen(cfg, RunMany(cfg, handle, FEED, EMPTY_STATE, n - 1).state, n - 1);
    }
  }

  /** From empty stores, with nothing escaping: after any number of runs below the attempt
      bound there is a message that is not done. */
  lemma {:induction false} FewerRunsAreNotEnough(cfg: Config, n: nat)
    requires 1 <= cfg.maxMessageBytes && 1 <= n < cfg.maxAttempts
    ensures Obliging(WORLD) && !IsDone(RunMany(cfg, Handling(cfg, WORLD), FEED, EMPTY_STATE, n).state.claims,
                                       KeyOf(cfg, MESSAGE))
  {
    forall s, r: nat | r + 1 < cfg.maxAttempts && StillOpen(cfg, s, r)
      ensures StillOpen(cfg, RunFeed(cfg, Handling(cfg, WORLD), FEED, s).state, r + 1)
    {
      RunLeavesOpen(cfg, s, r);
    }
    RunsLeaveOpen(cfg, Handling(cfg, WORLD), n);
  }
}
