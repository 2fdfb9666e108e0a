/** Worlds and states that several theorems start from or need as witnesses. */
module Scenarios {
  import opened Models
  import opened Observability
  import opened MemoryStores
  import opened Delivery

  /** Nothing stored, nothing sent. */
  const EMPTY_STATE := State(map[], map[], map[], [], [], [], [], [], 0, EMPTY_REPORT)

  const SMOOTH_WORK := Work(Ok(()), [], Ok(Relevance(None)), Ok(Extracted("", [])), Ok(()))

  const FAILING_WORK := SMOOTH_WORK.(parse := Raise(Transient))

  const REJECTED_WORK := SMOOTH_WORK.(parse := Raise(Permanent))

  /** Everything works. */
  const SMOOTH_VISIT := Visit(Ok(Some(1)), SMOOTH_WORK, Ok(()), SMOOTH_WORK, Ok(()), Ok(()), 0.0, 0.0)

  /** The work fails for now; nothing escapes. */
  const STUMBLE := SMOOTH_VISIT.(first := FAILING_WORK)

  lemma SmoothAttempt(cfg: Config, s: State, msg: RawMessage)
    ensures Attempt(cfg, SMOOTH_VISIT, s, msg).1.Terminal?
  {
  }

  lemma FailingAttempt(cfg: Config, v: Visit, s: State, msg: RawMessage)
    requires v.size.Ok? && 0 < SizeOf(v.size.value, msg) <= cfg.maxMessageBytes && v.first == FAILING_WORK
    requires Attempts(s.claims, KeyOf(cfg, msg)) < cfg.maxAttempts
    ensures Attempt(cfg, v, s, msg).1.Pending?
  {
  }
}
