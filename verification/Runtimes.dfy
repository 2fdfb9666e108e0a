/** The two transports that feed the notification queue and acknowledge what they were
    handed: Service Bus message by message, Event Hubs by moving a checkpoint. */
module Runtimes {
  import opened Models
  import opened Observability
  import opened MemoryStores
  import opened Delivery
  import opened Pipelines
  import opened LowWater
  import opened Convergence
  import opened Graph
  import opened GraphRuns

  /** A transport message as parsed: its notes, and how each of its lifecycle events is
      handled: with an exception, by asking for a sweep, or with no effect here. */
  datatype Signal = Signal(notes: Answer<seq<Note>>, lifecycle: seq<Answer<Option<StreamRef>>>)

  /** Processed, held for redelivery because a message stayed pending, or ended by an exception. */
  datatype Verdict = Settled | Held | Raised

  /** The lookups made for one signal, the messages fetched, and whether an exception left a
      visit to one of them. */
  datatype Served = Served(asked: seq<Asked>, fetched: seq<RawMessage>, escaped: bool)

  const NOTHING := Served([], [], false)

  /** What several signals did, one verdict and one account for each. */
  datatype Handled = Handled(state: State, desk: Desk, verdicts: seq<Verdict>, served: seq<Served>)

  function Sweeping(d: Desk, lifecycle: seq<Answer<Option<StreamRef>>>): (Desk, Verdict)
    decreases |lifecycle|
  {
    if lifecycle == [] then (d, Settled)
    else
      match lifecycle[0]
      case Raise(_) => (d, Raised)
      case Ok(None) => Sweeping(d, lifecycle[1..])
      case Ok(Some(stream)) => Sweeping(d.(sweeps := AddNew(d.sweeps, stream)), lifecycle[1..])
  }

  function Submitted(d: Desk, notes: seq<Note>): Desk {
    d.(pending := d.pending + notes)
  }

  function HandleSignal(cfg: Config, world: World, client: Client, s: State, d: Desk,
                        signal: Signal): (State, Desk, Verdict, Served)
  {
    match signal.notes
    case Raise(_) => (s, d, Raised, NOTHING)
    case Ok(notes) =>
      if notes == [] then
        var (swept, verdict) := Sweeping(d, signal.lifecycle);
        (s, swept, verdict, NOTHING)
      else
        var run := RunGraph(cfg, Handling(cfg, world), client, s, Submitted(d, notes));
        (run.state.(report := EMPTY_REPORT), run.desk,
         if run.escaped then Raised else if run.state.report.AllTerminal() then Settled else Held,
         Served(run.asked, run.fetched, Escaped in run.steps))
  }

  /** How signals are handled one by one.  A batch is defined for any way. */
  type SignalHandler = (State, Desk, Signal) -> (State, Desk, Verdict, Served)

  function SignalHandling(cfg: Config, world: World, client: Client): SignalHandler {
    (s: State, d: Desk, signal: Signal) => HandleSignal(cfg, world, client, s, d, signal)
  }

  /** Signals in turn, up to and including the first that raises. */
  function HandleAll(handler: SignalHandler, s: State, d: Desk, signals: seq<Signal>): Handled
    decreases |signals|
  {
    if signals == [] then Handled(s, d, [], [])
    else
      var (s', d', verdict, served) := handler(s, d, signals[0]);
      if verdict == Raised then Handled(s', d', [Raised], [served])
      else
        var rest := HandleAll(handler, s', d', signals[1..]);
        rest.(verdicts := [verdict] + rest.verdicts, served := [served] + rest.served)
  }

  // ---- The runtimes ----

  class Runtime {
    const provider: GraphProvider
    const pipeline: Pipeline

    constructor (provider: GraphProvider, pipeline: Pipeline)
      ensures this.provider == provider && this.pipeline == pipeline
    {
      this.provider, this.pipeline := provider, pipeline;
    }

    method HandleLifecycle(events: seq<Answer<Option<StreamRef>>>) returns (verdict: Verdict)
      modifies provider
      ensures (provider.AsDesk(), verdict) == Sweeping(old(provider.AsDesk()), events)
    {
      assert events[0..] == events;
      for i := 0 to |events|
        invariant Sweeping(provider.AsDesk(), events[i..]) == Sweeping(old(provider.AsDesk()), events)
      {
        assert events[i..][1..] == events[i + 1..];
        match events[i] {
          case Raise(_) => return Raised;
          case Ok(None) =>
          case Ok(Some(stream)) => provider.RequestSweep(stream);
        }
      }
      verdict := Settled;
    }

    method SubmitAll(notes: seq<Note>)
      modifies provider
      ensures provider.AsDesk() == Submitted(old(provider.AsDesk()), notes)
    {
      for i := 0 to |notes|
        invariant provider.AsDesk() == Submitted(old(provider.AsDesk()), notes[..i])
      {
        provider.Submit(notes[i]);
        assert notes[..i + 1] == notes[..i] + [notes[i]];
      }
      assert notes[..|notes|] == notes;
    }

    method Handle(signal: Signal) returns (verdict: Verdict)
      requires pipeline.deadLetterStore.Valid()
      modifies pipeline.dedupeStore, pipeline.cursorStore, pipeline.deadLetterStore, pipeline.outside, provider
      ensures pipeline.deadLetterStore.Valid()
      ensures var (s, d, v, _) := HandleSignal(pipeline.cfg, pipeline.outside.world, provider.client,
                                            old(pipeline.StateWith(EMPTY_REPORT)), old(provider.AsDesk()), signal);
              pipeline.StateWith(EMPTY_REPORT) == s && provider.AsDesk() == d && verdict == v
    {
      if signal.notes.Raise? {
        return Raised;
      }
      if signal.notes.value == [] {
        verdict := HandleLifecycle(signal.lifecycle);
        return;
      }
      SubmitAll(signal.notes.value);
      var report, escaped := Graph.RunOnce(pipeline, provider);
      if escaped {
        return Raised;
      }
      var terminal := report.AllTerminal();
      verdict := if terminal then Settled else Held;
    }

    /** Service Bus: each message is completed or abandoned, and an exception ends the batch
        after abandoning the message that caused it. */
    method ProcessMessages(messages: seq<Signal>) returns (settlements: seq<Settlement>, raised: bool)
      requires pipeline.deadLetterStore.Valid()
      modifies pipeline.dedupeStore, pipeline.cursorStore, pipeline.deadLetterStore, pipeline.outside, provider
      ensures pipeline.deadLetterStore.Valid()
      ensures var out := HandleAll(SignalHandling(pipeline.cfg, pipeline.outside.world, provider.client),
                                   old(pipeline.StateWith(EMPTY_REPORT)), old(provider.AsDesk()), messages);
              (pipeline.StateWith(EMPTY_REPORT), provider.AsDesk(), settlements, raised)
              == (out.state, out.desk, Settlements(out.verdicts), Raised in out.verdicts)
    {
      ghost var handler := SignalHandling(pipeline.cfg, pipeline.outside.world, provider.client);
      ghost var whole := HandleAll(handler, pipeline.StateWith(EMPTY_REPORT), provider.AsDesk(), messages);
      ghost var verdicts := [];
      settlements := [];
      assert [] + whole.verdicts == whole.verdicts;
      assert messages[0..] == messages;
      for i := 0 to |messages|
        invariant pipeline.deadLetterStore.Valid()
        invariant settlements == Settlements(verdicts) && Raised !in verdicts
        invariant Continues(whole, verdicts,
                            HandleAll(handler, pipeline.StateWith(EMPTY_REPORT), provider.AsDesk(), messages[i..]))
      {
        ghost var s, d := pipeline.StateWith(EMPTY_REPORT), provider.AsDesk();
        var verdict := Handle(messages[i]);
        BatchContinues(handler, whole, verdicts, s, d, messages, i);
        SettlementsSnoc(verdicts, verdict);
        verdicts := verdicts + [verdict];
        settlements := settlements + [SettlementFor(verdict)];
        if verdict == Raised {
          return settlements, true;
        }
      }
      BatchEnds(handler, whole, verdicts, pipeline.StateWith(EMPTY_REPORT), provider.AsDesk(), messages[|messages|..]);
      raised := false;
    }

    /** Event Hubs: the checkpoint moves to every event that settled; a held one is skipped. */
    method ProcessBatch(events: seq<Signal>) returns (checkpoint: nat, raised: bool)
      requires pipeline.deadLetterStore.Valid()
      modifies pipeline.dedupeStore, pipeline.cursorStore, pipeline.deadLetterStore, pipeline.outside, provider
      ensures pipeline.deadLetterStore.Valid()
      ensures var out := HandleAll(SignalHandling(pipeline.cfg, pipeline.outside.world, provider.client),
                                   old(pipeline.StateWith(EMPTY_REPORT)), old(provider.AsDesk()), events);
              (pipeline.StateWith(EMPTY_REPORT), provider.AsDesk(), checkpoint, raised)
              == (out.state, out.desk, Checkpoint(out.verdicts), Raised in out.verdicts)
    {
      ghost var handler := SignalHandling(pipeline.cfg, pipeline.outside.world, provider.client);
      ghost var whole := HandleAll(handler, pipeline.StateWith(EMPTY_REPORT), provider.AsDesk(), events);
      ghost var verdicts := [];
      checkpoint := 0;
      assert [] + whole.verdicts == whole.verdicts;
      assert events[0..] == events;
      for i := 0 to |events|
        invariant pipeline.deadLetterStore.Valid()
        invariant checkpoint == Checkpoint(verdicts) && Raised !in verdicts && |verdicts| == i
        invariant Continues(whole, verdicts,
                            HandleAll(handler, pipeline.StateWith(EMPTY_REPORT), provider.AsDesk(), events[i..]))
      {
        ghost var s, d := pipeline.StateWith(EMPTY_REPORT), provider.AsDesk();
        var verdict := Handle(events[i]);
        BatchContinues(handler, whole, verdicts, s, d, events, i);
        CheckpointSnoc(verdicts, verdict);
        verdicts := verdicts + [verdict];
        if verdict == Raised {
          return checkpoint, true;
        }
        if verdict == Settled {
          checkpoint := i + 1;
        }
      }
      BatchEnds(handler, whole, verdicts, pipeline.StateWith(EMPTY_REPORT), provider.AsDesk(), events[|events|..]);
      raised := false;
    }
  }

  /** `whole` is what remains after these verdicts. */
  ghost predicate Continues(whole: Handled, verdicts: seq<Verdict>, left: Handled) {
    whole.state == left.state && whole.desk == left.desk && whole.verdicts == verdicts + left.verdicts
  }

  lemma {:induction false} BatchContinues(handler: SignalHandler, whole: Handled, verdicts: seq<Verdict>, s: State,
                                          d: Desk, signals: seq<Signal>, i: nat)
    requires i < |signals| && Continues(whole, verdicts, HandleAll(handler, s, d, signals[i..]))
    ensures var (s', d', verdict, _) := handler(s, d, signals[i]);
            if verdict == Raised then whole.(served := []) == Handled(s', d', verdicts + [Raised], [])
            else Continues(whole, verdicts + [verdict], HandleAll(handler, s', d', signals[i + 1..]))
  {
    var (s', d', verdict, _) := handler(s, d, signals[i]);
    assert signals[i..][0] == signals[i] && signals[i..][1..] == signals[i + 1..];
    if verdict != Raised {
      var rest := HandleAll(handler, s', d', signals[i + 1..]).verdicts;
      assert verdicts + ([verdict] + rest) == verdicts + [verdict] + rest;
    }
  }

  lemma BatchEnds(handler: SignalHandler, whole: Handled, verdicts: seq<Verdict>, s: State, d: Desk,
                  signals: seq<Signal>)
    requires signals == [] && Continues(whole, verdicts, HandleAll(handler, s, d, signals))
    ensures whole.(served := []) == Handled(s, d, verdicts, [])
  {
    assert verdicts + [] == verdicts;
  }

  datatype Settlement = Complete | Abandon

  function SettlementFor(verdict: Verdict): Settlement {
    if verdict == Settled then Complete else Abandon
  }

  function Settlements(verdicts: seq<Verdict>): seq<Settlement> {
    if verdicts == [] then [] else [SettlementFor(verdicts[0])] + Settlements(verdicts[1..])
  }

  lemma {:induction false} SettlementsSnoc(verdicts: seq<Verdict>, last: Verdict)
    ensures Settlements(verdicts + [last]) == Settlements(verdicts) + [SettlementFor(last)]
  {
    if verdicts != [] {
      assert (verdicts + [last])[1..] == verdicts[1..] + [last];
      SettlementsSnoc(verdicts[1..], last);
    } else {
      assert [last][1..] == [];
      assert Settlements([last]) == [SettlementFor(last)];
    }
  }

  /** How many events are at or before the last checkpoint. */
  function Checkpoint(verdicts: seq<Verdict>): nat {
    if verdicts == [] then 0
    else if verdicts[|verdicts| - 1] == Settled then |verdicts|
    else Checkpoint(verdicts[..|verdicts| - 1])
  }

  lemma CheckpointSnoc(verdicts: seq<Verdict>, last: Verdict)
    ensures Checkpoint(verdicts + [last]) == if last == Settled then |verdicts| + 1 else Checkpoint(verdicts)
  {
    assert (verdicts + [last])[..|verdicts|] == verdicts;
  }

  // ---- What handling one signal keeps ----

  /** From quiet stores; they stay quiet unless an exception leaves a visit. */
  ghost predicate Kept(cfg: Config, client: Client, s: State, d: Desk, signal: Signal, s': State, d': Desk,
                       verdict: Verdict, served: Served) {
    && DoneStays(s.claims, s'.claims) && Unrepeated(d'.sweeps)
    && (Quiet(s'.claims) <==> !served.escaped) && (served.escaped ==> verdict == Raised)
    && (verdict != Raised ==> signal.notes.Ok? && d'.pending == if signal.notes.value == [] then d.pending else [])
    && (verdict == Settled ==> MailsDone(cfg, client, s'.claims, signal, served))
  }

  /** Every note of the signal was looked up, each lookup made for the signal found no mail or
      one that is done, and every message fetched for it is done. */
  ghost predicate MailsDone(cfg: Config, client: Client, claims: Claims, signal: Signal, served: Served) {
    && (signal.notes.Ok? ==> AllAsked(signal.notes.value, served.asked))
    && AllServed(cfg, client, claims, served.asked, served.fetched)
  }

  lemma {:induction false} SweepingKeeps(d: Desk, lifecycle: seq<Answer<Option<StreamRef>>>)
    requires Unrepeated(d.sweeps)
    ensures Unrepeated(Sweeping(d, lifecycle).0.sweeps)
    ensures Sweeping(d, lifecycle).0.(sweeps := []) == d.(sweeps := [])
    decreases |lifecycle|
  {
    if lifecycle != [] && lifecycle[0].Ok? {
      match lifecycle[0].value {
        case None => SweepingKeeps(d, lifecycle[1..]);
        case Some(stream) =>
          RequestsStayUnrepeated(d.sweeps, stream);
          SweepingKeeps(d.(sweeps := AddNew(d.sweeps, stream)), lifecycle[1..]);
      }
    }
  }

  lemma SignalKeeps(cfg: Config, world: World, client: Client, s: State, d: Desk, signal: Signal)
    requires Unrepeated(d.sweeps) && Quiet(s.claims)
    ensures var (s', d', verdict, served) := HandleSignal(cfg, world, client, s, d, signal);
            Kept(cfg, client, s, d, signal, s', d', verdict, served)
  {
    if signal.notes.Ok? {
      if signal.notes.value == [] {
        SweepingKeeps(d, signal.lifecycle);
      } else {
        var submitted := Submitted(d, signal.notes.value);
        AllTerminalIsSettled(cfg, world, client, s, submitted);
        RequestsSurviveExactly(cfg, Handling(cfg, world), client, s, submitted);
        assert forall note | note in signal.notes.value :: note in submitted.pending;
        if !RunGraph(cfg, Handling(cfg, world), client, s, submitted).escaped {
          NormalRunEmptiesTheDesk(cfg, Handling(cfg, world), client, s, submitted);
        }
      }
    }
  }

  ghost predicate Keeping(cfg: Config, client: Client, handler: SignalHandler) {
    forall s: State, d: Desk, signal: Signal | Unrepeated(d.sweeps) && Quiet(s.claims) ::
      var (s', d', verdict, served) := handler(s, d, signal);
      Kept(cfg, client, s, d, signal, s', d', verdict, served)
  }

  lemma HandlingKeeps(cfg: Config, world: World, client: Client)
    ensures Keeping(cfg, client, SignalHandling(cfg, world, client))
  {
    forall s: State, d: Desk, signal: Signal | Unrepeated(d.sweeps) && Quiet(s.claims)
      ensures var (s', d', verdict, served) := SignalHandling(cfg, world, client)(s, d, signal);
              Kept(cfg, client, s, d, signal, s', d', verdict, served)
    {
      SignalKeeps(cfg, world, client, s, d, signal);
    }
  }

  // ---- Batches ----

  /** One verdict for each signal up to the first exception, which ends the batch. */
  lemma {:induction false} VerdictsCover(handler: SignalHandler, s: State, d: Desk, signals: seq<Signal>)
    ensures var verdicts := HandleAll(handler, s, d, signals).verdicts;
            && |verdicts| == |HandleAll(handler, s, d, signals).served| <= |signals|
            && (forall i | 0 <= i < |verdicts| - 1 :: verdicts[i] != Raised)
            && (Raised !in verdicts ==> |verdicts| == |signals|)
    decreases |signals|
  {
    if signals != [] {
      var (s', d', verdict, served) := handler(s, d, signals[0]);
      if verdict != Raised {
        VerdictsCover(handler, s', d', signals[1..]);
        var rest := HandleAll(handler, s', d', signals[1..]).verdicts;
        assert forall v | v in rest :: v in [verdict] + rest;
      }
    }
  }

  ghost predicate SettledAreDone(cfg: Config, client: Client, out: Handled, signals: seq<Signal>) {
    |out.verdicts| == |out.served| <= |signals|
    && forall i | 0 <= i < |out.verdicts| && out.verdicts[i] == Settled ::
         MailsDone(cfg, client, out.state.claims, signals[i], out.served[i])
  }

  /** No exception left a visit. */
  ghost predicate NoneEscaped(out: Handled) {
    forall i | 0 <= i < |out.served| :: !out.served[i].escaped
  }

  /** Lifecycle events only. */
  ghost predicate Noteless(signals: seq<Signal>) {
    forall i | 0 <= i < |signals| :: signals[i].notes == Ok([])
  }

  /** A signal, then the rest of its batch. */
  lemma HandledCompose(verdict: Verdict, served: Served, rest: Handled, signals: seq<Signal>)
    requires signals != []
    ensures NoneEscaped(rest.(verdicts := [verdict] + rest.verdicts, served := [served] + rest.served))
       <==> !served.escaped && NoneEscaped(rest)
    ensures Noteless(signals) <==> signals[0].notes == Ok([]) && Noteless(signals[1..])
  {
    var both := [served] + rest.served;
    assert both[0] == served && forall i | 0 <= i < |rest.served| :: both[i + 1] == rest.served[i];
    assert forall i | 0 < i < |signals| :: signals[i] == signals[1..][i - 1];
    assert forall i | 0 <= i < |signals| - 1 :: signals[1..][i] == signals[i + 1];
  }

  lemma {:induction false} BatchKeeps(cfg: Config, client: Client, handler: SignalHandler, s: State, d: Desk,
                                      signals: seq<Signal>)
    requires Keeping(cfg, client, handler)
    requires Unrepeated(d.sweeps) && Quiet(s.claims)
    ensures var out := HandleAll(handler, s, d, signals);
            && DoneStays(s.claims, out.state.claims) && Unrepeated(out.desk.sweeps)
            && (Quiet(out.state.claims) <==> NoneEscaped(out))
            && (Raised !in out.verdicts ==> out.desk.pending == if Noteless(signals) then d.pending else [])
            && SettledAreDone(cfg, client, out, signals)
    decreases |signals|
  {
    if signals != [] {
      var (s', d', verdict, served) := handler(s, d, signals[0]);
      assert Kept(cfg, client, s, d, signals[0], s', d', verdict, served);
      if verdict != Raised {
        var rest := HandleAll(handler, s', d', signals[1..]);
        BatchKeeps(cfg, client, handler, s', d', signals[1..]);
        SettledCompose(cfg, client, signals, s', verdict, served, rest);
        HandledCompose(verdict, served, rest, signals);
        assert Raised in [verdict] + rest.verdicts <==> Raised in rest.verdicts;
      } else {
        assert HandleAll(handler, s, d, signals).served[0] == served;
      }
    }
  }

  lemma SettledCompose(cfg: Config, client: Client, signals: seq<Signal>, s': State, verdict: Verdict, served: Served,
                       rest: Handled)
    requires signals != [] && DoneStays(s'.claims, rest.state.claims)
    requires verdict == Settled ==> MailsDone(cfg, client, s'.claims, signals[0], served)
    requires SettledAreDone(cfg, client, rest, signals[1..])
    ensures SettledAreDone(cfg, client, rest.(verdicts := [verdict] + rest.verdicts, served := [served] + rest.served),
                           signals)
  {
    var out := rest.(verdicts := [verdict] + rest.verdicts, served := [served] + rest.served);
    forall i | 0 <= i < |out.verdicts| && out.verdicts[i] == Settled
      ensures MailsDone(cfg, client, out.state.claims, signals[i], out.served[i])
    {
      if i == 0 {
        ServedStays(cfg, client, s'.claims, rest.state.claims, served.asked, served.fetched);
      } else {
        assert signals[i] == signals[1..][i - 1] && out.verdicts[i] == rest.verdicts[i - 1];
      }
    }
  }

  lemma {:induction false} SettlementAt(verdicts: seq<Verdict>)
    ensures |Settlements(verdicts)| == |verdicts|
    ensures forall i | 0 <= i < |verdicts| :: Settlements(verdicts)[i] == SettlementFor(verdicts[i])
  {
    if verdicts != [] {
      SettlementAt(verdicts[1..]);
    }
  }

  /** What a batch of Service Bus messages leaves behind. */
  ghost predicate ProperlySettled(cfg: Config, client: Client, d: Desk, messages: seq<Signal>, out: Handled) {
    var settlements, raised := Settlements(out.verdicts), Raised in out.verdicts;
    && (!raised ==>
          |settlements| == |messages| && out.desk.pending == if Noteless(messages) then d.pending else [])
    && (Quiet(out.state.claims) <==> NoneEscaped(out)) && Unrepeated(out.desk.sweeps)
    && (raised ==> 0 < |settlements| <= |messages| && settlements[|settlements| - 1] == Abandon)
    && (forall i | 0 <= i < |settlements| && settlements[i] == Complete ::
          i < |messages| && i < |out.served| && MailsDone(cfg, client, out.state.claims, messages[i], out.served[i]))
  }

  lemma {:induction false} RaisedIsAbandoned(verdicts: seq<Verdict>)
    requires Raised in verdicts && forall i | 0 <= i < |verdicts| - 1 :: verdicts[i] != Raised
    ensures 0 < |Settlements(verdicts)| && Settlements(verdicts)[|Settlements(verdicts)| - 1] == Abandon
  {
    SettlementAt(verdicts);
  }

  lemma {:induction false} CompletedIsDone(cfg: Config, client: Client, out: Handled, messages: seq<Signal>, i: nat)
    requires SettledAreDone(cfg, client, out, messages) && i < |Settlements(out.verdicts)|
    requires Settlements(out.verdicts)[i] == Complete
    ensures i < |messages| && i < |out.served| && MailsDone(cfg, client, out.state.claims, messages[i], out.served[i])
  {
    SettlementAt(out.verdicts);
    assert out.verdicts[i] == Settled;
  }

  lemma CompletedAreDone(cfg: Config, client: Client, out: Handled, messages: seq<Signal>)
    requires SettledAreDone(cfg, client, out, messages)
    ensures forall i | 0 <= i < |Settlements(out.verdicts)| && Settlements(out.verdicts)[i] == Complete ::
              i < |messages| && i < |out.served|
              && MailsDone(cfg, client, out.state.claims, messages[i], out.served[i])
  {
    forall i | 0 <= i < |Settlements(out.verdicts)| && Settlements(out.verdicts)[i] == Complete
      ensures i < |messages| && i < |out.served|
              && MailsDone(cfg, client, out.state.claims, messages[i], out.served[i])
    {
      CompletedIsDone(cfg, client, out, messages, i);
    }
  }

  lemma {:induction false} BatchIsSettled(cfg: Config, client: Client, handler: SignalHandler, s: State, d: Desk,
                                          messages: seq<Signal>)
    requires Keeping(cfg, client, handler)
    requires Quiet(s.claims) && Unrepeated(d.sweeps)
    ensures ProperlySettled(cfg, client, d, messages, HandleAll(handler, s, d, messages))
  {
    var out := HandleAll(handler, s, d, messages);
    BatchKeeps(cfg, client, handler, s, d, messages);
    VerdictsCover(handler, s, d, messages);
    SettlementAt(out.verdicts);
    if Raised in out.verdicts {
      RaisedIsAbandoned(out.verdicts);
    }
    CompletedAreDone(cfg, client, out, messages);
  }

  /** Service Bus, from quiet stores: a batch that returns has settled every message once, in
      order, and left no note waiting that it did not find; one that raises has abandoned the
      message at fault last and touched no later one.  Either way the stores are quiet again if
      and only if no exception left a visit.  Of a completed message every note was looked up,
      and every mail it was answered with or that its run fetched is done. */
  lemma ServiceBusSettlement(cfg: Config, world: World, client: Client, s: State, d: Desk, messages: seq<Signal>)
    requires Quiet(s.claims) && Unrepeated(d.sweeps)
    ensures ProperlySettled(cfg, client, d, messages, HandleAll(SignalHandling(cfg, world, client), s, d, messages))
  {
    HandlingKeeps(cfg, world, client);
    BatchIsSettled(cfg, client, SignalHandling(cfg, world, client), s, d, messages);
  }

  // ---- Batch after batch ----

  /** Where these batches leave the stores and the queue, whether they return or raise. */
  function AfterBatches(handler: SignalHandler, s: State, d: Desk, batches: seq<seq<Signal>>): (State, Desk)
    decreases |batches|
  {
    if batches == [] then (s, d)
    else
      var out := HandleAll(handler, s, d, batches[0]);
      AfterBatches(handler, out.state, out.desk, batches[1..])
  }

  /** No exception leaves a visit in any of these batches. */
  ghost predicate NoVisitEscapes(handler: SignalHandler, s: State, d: Desk, batches: seq<seq<Signal>>)
    decreases |batches|
  {
    batches != [] ==>
      var out := HandleAll(handler, s, d, batches[0]);
      NoneEscaped(out) && NoVisitEscapes(handler, out.state, out.desk, batches[1..])
  }

  lemma {:induction false} BatchesKeep(cfg: Config, client: Client, handler: SignalHandler, s: State, d: Desk,
                                       batches: seq<seq<Signal>>)
    requires Keeping(cfg, client, handler) && Quiet(s.claims) && Unrepeated(d.sweeps)
    requires NoVisitEscapes(handler, s, d, batches)
    ensures var (s', d') := AfterBatches(handler, s, d, batches); Quiet(s'.claims) && Unrepeated(d'.sweeps)
    decreases |batches|
  {
    if batches != [] {
      var out := HandleAll(handler, s, d, batches[0]);
      BatchKeeps(cfg, client, handler, s, d, batches[0]);
      BatchesKeep(cfg, client, handler, out.state, out.desk, batches[1..]);
    }
  }

  /** Where the calls that can escape do not raise, none does. */
  lemma {:induction false} ObligingNeverEscapes(cfg: Config, world: World, client: Client, s: State, d: Desk,
                                                batches: seq<seq<Signal>>)
    requires Obliging(world)
    ensures NoVisitEscapes(SignalHandling(cfg, world, client), s, d, batches)
    decreases |batches|
  {
    if batches != [] {
      var handler := SignalHandling(cfg, world, client);
      forall s, d, signal ensures !handler(s, d, signal).3.escaped {
        if signal.notes.Ok? {
          ObligingRun(cfg, world, client, s, Submitted(d, signal.notes.value));
        }
      }
      NeverEscapes(handler, s, d, batches[0]);
      var out := HandleAll(handler, s, d, batches[0]);
      ObligingNeverEscapes(cfg, world, client, out.state, out.desk, batches[1..]);
    }
  }

  lemma {:induction false} NeverEscapes(handler: SignalHandler, s: State, d: Desk, signals: seq<Signal>)
    requires forall s, d, signal :: !handler(s, d, signal).3.escaped
    ensures NoneEscaped(HandleAll(handler, s, d, signals))
    decreases |signals|
  {
    if signals != [] {
      var (s', d', verdict, served) := handler(s, d, signals[0]);
      assert !handler(s, d, signals[0]).3.escaped;
      if verdict != Raised {
        NeverEscapes(handler, s', d', signals[1..]);
        HandledCompose(verdict, served, HandleAll(handler, s', d', signals[1..]), signals);
      }
    }
  }

  /** After any batches, returned or raised, as long as no exception left a visit, the next one
      is settled just as the first. */
  lemma {:induction false} BatchesSettle(cfg: Config, world: World, client: Client, s: State, d: Desk,
                                         batches: seq<seq<Signal>>, messages: seq<Signal>)
    requires Quiet(s.claims) && Unrepeated(d.sweeps)
    requires NoVisitEscapes(SignalHandling(cfg, world, client), s, d, batches)
    ensures var handler := SignalHandling(cfg, world, client);
            var (s', d') := AfterBatches(handler, s, d, batches);
            ProperlySettled(cfg, client, d', messages, HandleAll(handler, s', d', messages))
  {
    var handler := SignalHandling(cfg, world, client);
    HandlingKeeps(cfg, world, client);
    BatchesKeep(cfg, client, handler, s, d, batches);
    var (s', d') := AfterBatches(handler, s, d, batches);
    ServiceBusSettlement(cfg, world, client, s', d', messages);
  }

  // ---- A request that is completed and lost ----

  /** Nothing is found for any note, and every delta listing raises. */
  const DELTA_DOWN := Client((note: Note) => StreamRef(note.userId, Some("inbox")), (round, i, note) => Ok(None),
                             (round, stream, token) => Raise(Transient))

  lemma {:induction false} NothingFound(stream: StreamRef, round: nat, pending: seq<Note>, i: nat, order: nat)
    requires i <= |pending|
    ensures Looked(DELTA_DOWN, stream, round, pending, i, order) == Batch([], false)
    decreases |pending| - i
  {
    if i < |pending| {
      NothingFound(stream, round, pending, i + 1, order);
    }
  }

  lemma {:induction false} DeltaDownStream(cfg: Config, handle: Handler, s: State, d: Desk, stream: StreamRef)
    ensures var run := RunGraphStream(cfg, handle, DELTA_DOWN, s, d, stream);
            && run.escaped == (stream in d.sweeps)
            && run.desk.sweeps == OtherSweeps(stream, d.sweeps)
  {
    NothingFound(stream, d.rounds, d.pending, 0, d.order);
    var none: seq<RawMessage> := [];
    assert none + none == none;
    assert RunStream(cfg, handle, s, stream, none, false) == Run(s, [], false);
  }

  ghost predicate DeltaDown(runner: StreamRunner) {
    forall s, d, stream ::
      var run := runner(s, d, stream);
      run.escaped == (stream in d.sweeps) && run.desk.sweeps == OtherSweeps(stream, d.sweeps)
  }

  lemma {:induction false} DeltaDownStreams(runner: StreamRunner, s: State, d: Desk, streams: seq<StreamRef>,
                                            stream: StreamRef)
    requires DeltaDown(runner) && d.sweeps == [stream] && stream in streams
    ensures var run := RunGraphStreams(runner, s, d, streams); run.escaped && run.desk.sweeps == []
    decreases |streams|
  {
    var first := runner(s, d, streams[0]);
    assert first.escaped == (streams[0] in d.sweeps) && first.desk.sweeps == OtherSweeps(streams[0], d.sweeps);
    if streams[0] != stream {
      OtherSweepsSame(streams[0], d.sweeps);
      DeltaDownStreams(runner, first.state, first.desk, streams[1..], stream);
    }
  }

  /** A lifecycle event that asks for a sweep settles at once. */
  lemma RequestSettles(cfg: Config, world: World, client: Client, s: State, d: Desk, stream: StreamRef)
    requires d.sweeps == []
    ensures HandleSignal(cfg, world, client, s, d, Signal(Ok([]), [Ok(Some(stream))]))
         == (s, d.(sweeps := [stream]), Settled, NOTHING)
  {
    var events: seq<Answer<Option<StreamRef>>> := [Ok(Some(stream))];
    assert events[1..] == [] && d.sweeps + [stream] == [stream];
    assert Sweeping(d.(sweeps := [stream]), []) == (d.(sweeps := [stream]), Settled);
    assert Sweeping(d, events) == (d.(sweeps := [stream]), Settled);
  }

  /** The run for the next message asks for the listing, which raises. */
  lemma {:induction false} NextRunRaises(cfg: Config, world: World, s: State, d: Desk, stream: StreamRef,
                                         notes: seq<Note>)
    requires d.sweeps == [stream] && notes != []
    ensures var (_, d', verdict, _) := HandleSignal(cfg, world, DELTA_DOWN, s, d, Signal(Ok(notes), []));
            verdict == Raised && d'.sweeps == []
  {
    var submitted, runner := Submitted(d, notes), Graph.Running(cfg, Handling(cfg, world), DELTA_DOWN);
    StreamsAreThoseWaiting(DELTA_DOWN, submitted);
    assert stream in Waiting(DELTA_DOWN, submitted);
    forall s, d, stream
      ensures var run := runner(s, d, stream);
              run.escaped == (stream in d.sweeps) && run.desk.sweeps == OtherSweeps(stream, d.sweeps)
    {
      DeltaDownStream(cfg, Handling(cfg, world), s, d, stream);
    }
    DeltaDownStreams(runner, s.(report := EMPTY_REPORT), submitted, SyncStreams(DELTA_DOWN, submitted), stream);
  }

  lemma {:induction false} SettledThenRaised(handler: SignalHandler, s: State, d: Desk, first: Signal, second: Signal)
    requires handler(s, d, first).2 == Settled
    requires var (s', d', _, _) := handler(s, d, first); handler(s', d', second).2 == Raised
    ensures var out := HandleAll(handler, s, d, [first, second]);
            var (s', d', _, _) := handler(s, d, first);
            Settlements(out.verdicts) == [Complete, Abandon] && out.desk == handler(s', d', second).1
  {
    var (s', d', _, _) := handler(s, d, first);
    assert [first, second][1..] == [second];
    assert HandleAll(handler, s', d', [second]).verdicts == [Raised];
    assert [Settled] + [Raised] == [Settled, Raised];
    SettlementAt([Settled, Raised]);
  }

  /** A message that asks for a sweep is completed before the sweep is made: if the listing then
      raises, in the run for a later message, the request is neither waiting nor met, and the
      message that made it does not come again. */
  lemma {:induction false} SweepRequestIsLost(cfg: Config, world: World, s: State, d: Desk, stream: StreamRef,
                                              notes: seq<Note>)
    requires d.sweeps == [] && notes != []
    ensures var out := HandleAll(SignalHandling(cfg, world, DELTA_DOWN), s, d,
                                 [Signal(Ok([]), [Ok(Some(stream))]), Signal(Ok(notes), [])]);
            Settlements(out.verdicts) == [Complete, Abandon] && out.desk.sweeps == []
  {
    RequestSettles(cfg, world, DELTA_DOWN, s, d, stream);
    NextRunRaises(cfg, world, s, d.(sweeps := [stream]), stream, notes);
    SettledThenRaised(SignalHandling(cfg, world, DELTA_DOWN), s, d, Signal(Ok([]), [Ok(Some(stream))]),
                      Signal(Ok(notes), []));
  }

  // ---- Event Hubs ----

  lemma {:induction false} CheckpointIsLast(verdicts: seq<Verdict>)
    ensures Checkpoint(verdicts) <= |verdicts|
    ensures Checkpoint(verdicts) > 0 ==> verdicts[Checkpoint(verdicts) - 1] == Settled
    ensures forall i | Checkpoint(verdicts) <= i < |verdicts| :: verdicts[i] != Settled
  {
    if verdicts != [] && verdicts[|verdicts| - 1] != Settled {
      CheckpointIsLast(verdicts[..|verdicts| - 1]);
    }
  }

  /** An event of the batch is at or after the checkpoint, and so is delivered again, unless
      it or a later one settled. */
  lemma CheckpointPasses(verdicts: seq<Verdict>, i: nat)
    requires i < |verdicts| && verdicts[i] != Settled
    ensures Checkpoint(verdicts) <= i <==> forall j | i < j < |verdicts| :: verdicts[j] != Settled
  {
    CheckpointIsLast(verdicts);
  }
}
