/** Decision traces, dead letters and the per-run report with its counters. */
module Observability {
  import opened Models

  /** Why a message was dropped or dead-lettered.  A dead letter's error class is the
      constructor together with the failure it carries. */
  datatype Reason =
    | Unstated
    | Filtered(text: string)
    | SizeUnknown(size: int)
    | Oversized(size: int, limit: int)
    | Failed(failure: Failure)
    | AuthRetryFailed(original: Failure, retry: Failure)

  /** One message decision.  `key` names the message the trace is about. */
  datatype Trace = Trace(key: string, disposition: Disposition, stage: string, matchedFilter: string, reason: Reason)

  datatype StripReason = NotAllowlisted | Oversize | Unreadable | Scanner

  /** One attachment removed before delivery. */
  datatype Strip = Strip(filename: string, contentType: string, sizeBytes: nat, isInline: bool, reason: StripReason)

  datatype DeadLetter = DeadLetter(key: string, reason: Reason)

  /** A durable dead letter: everything needed to rebuild the original message. */
  datatype DeadLetterRecord = DeadLetterRecord(
    recordId: string,
    tenant: string,
    provider: string,
    providerMessageId: string,
    mailbox: string,
    folder: Option<string>,
    reason: Reason,
    attempts: nat,
    sizeBytes: int,
    threadKey: string,
    cursorValue: string,
    cursorOrder: int,
    receivedAt: Time,
    deadLetteredAt: Time,
    rawB64: string)

  /** The contents of a run report. */
  datatype Report = Report(
    fetched: nat,
    emitted: nat,
    dropped: nat,
    duplicates: nat,
    deadLettered: nat,
    attachmentsStripped: nat,
    traces: seq<Trace>,
    stripped: seq<Strip>,
    dlq: seq<DeadLetter>)
  {
    function Terminal(): nat {
      emitted + dropped + duplicates + deadLettered
    }

    predicate AllTerminal() {
      fetched <= Terminal()
    }

    function WithTrace(trace: Trace): Report {
      var r := this.(traces := traces + [trace]);
      match trace.disposition
      case Emitted => r.(emitted := emitted + 1)
      case Dropped => r.(dropped := dropped + 1)
      case Duplicate => r.(duplicates := duplicates + 1)
      case DeadLettered => r
    }

    function WithStrips(strips: seq<Strip>): Report {
      this.(stripped := stripped + strips, attachmentsStripped := attachmentsStripped + |strips|)
    }

    function WithDeadLetter(letter: DeadLetter): Report {
      this.(dlq := dlq + [letter], deadLettered := deadLettered + 1)
    }
  }

  const EMPTY_REPORT := Report(0, 0, 0, 0, 0, 0, [], [], [])

  /** How many of `traces` carry disposition `d`. */
  function Count(traces: seq<Trace>, d: Disposition): nat {
    if traces == [] then 0
    else (if traces[|traces| - 1].disposition == d then 1 else 0) + Count(traces[..|traces| - 1], d)
  }

  /** Every counter agrees with the lists it summarises. */
  ghost predicate Consistent(r: Report) {
    && r.emitted == Count(r.traces, Emitted)
    && r.dropped == Count(r.traces, Dropped)
    && r.duplicates == Count(r.traces, Duplicate)
    && r.deadLettered == Count(r.traces, DeadLettered) == |r.dlq|
    && r.attachmentsStripped == |r.stripped|
  }

  lemma {:induction false} CountAppend(traces: seq<Trace>, t: Trace)
    ensures forall d :: Count(traces + [t], d) == Count(traces, d) + if t.disposition == d then 1 else 0
  {
    assert (traces + [t])[..|traces|] == traces;
  }

  lemma {:induction false} CountsCoverTraces(traces: seq<Trace>)
    ensures Count(traces, Emitted) + Count(traces, Dropped) + Count(traces, Duplicate) + Count(traces, DeadLettered)
        == |traces|
  {
    if traces != [] {
      CountsCoverTraces(traces[..|traces| - 1]);
    }
  }

  /** A consistent report has one trace for each message counted as terminal. */
  lemma TerminalIsTraced(r: Report)
    requires Consistent(r)
    ensures r.Terminal() == |r.traces|
  {
    CountsCoverTraces(r.traces);
  }

  /** The report object one run fills in. */
  class RunReport {
    var fetched: nat
    var emitted: nat
    var dropped: nat
    var duplicates: nat
    var deadLettered: nat
    var attachmentsStripped: nat
    var traces: seq<Trace>
    var stripped: seq<Strip>
    var dlq: seq<DeadLetter>

    function View(): Report
      reads this
    {
      Report(fetched, emitted, dropped, duplicates, deadLettered, attachmentsStripped, traces, stripped, dlq)
    }

    constructor ()
      ensures View() == EMPTY_REPORT
    {
      fetched, emitted, dropped, duplicates, deadLettered, attachmentsStripped := 0, 0, 0, 0, 0, 0;
      traces, stripped, dlq := [], [], [];
    }

    method CountFetched()
      modifies this
      ensures View() == old(View()).(fetched := old(fetched) + 1)
    {
      fetched := fetched + 1;
    }

    /** Counts every disposition except `DeadLettered`, which `AddDeadLetter` counts. */
    method Record(trace: Trace)
      modifies this
      ensures View() == old(View()).WithTrace(trace)
    {
      traces := traces + [trace];
      if trace.disposition == Emitted {
        emitted := emitted + 1;
      } else if trace.disposition == Dropped {
        dropped := dropped + 1;
      } else if trace.disposition == Duplicate {
        duplicates := duplicates + 1;
      }
    }

    method RecordStripped(strip: Strip)
      modifies this
      ensures View() == old(View()).WithStrips([strip])
    {
      stripped := stripped + [strip];
      attachmentsStripped := attachmentsStripped + 1;
    }

    method AddDeadLetter(letter: DeadLetter)
      modifies this
      ensures View() == old(View()).WithDeadLetter(letter)
    {
      dlq := dlq + [letter];
      deadLettered := deadLettered + 1;
    }

    /** With consistent counters: does every fetched message have its trace? */
    method AllTerminal() returns (b: bool)
      ensures b == View().AllTerminal()
      ensures Consistent(View()) ==> (b <==> fetched <= |traces|)
    {
      assert Consistent(View()) ==> View().Terminal() == |traces| by {
        if Consistent(View()) {
          TerminalIsTraced(View());
        }
      }
      var terminal := emitted + dropped + duplicates + deadLettered;
      b := fetched <= terminal;
    }
  }
}
