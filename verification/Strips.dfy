/** Strips are on record before the emitter answers: when a run's strips are those of the
    mail it emitted, and by how much they exceed them otherwise. */
module Strips {
  import opened Models
  import opened Observability
  import opened MemoryStores
  import opened Delivery
  import opened Visits
  import FilterChain
  import Runs

  /** The strips of these events, in order. */
  function StripsOf(events: seq<EmailEvent>): seq<Strip> {
    if events == [] then [] else events[0].email.content.stripped + StripsOf(events[1..])
  }

  lemma {:induction false} StripsJoin(left: seq<EmailEvent>, right: seq<EmailEvent>)
    ensures StripsOf(left + right) == StripsOf(left) + StripsOf(right)
  {
    if left == [] {
      assert left + right == right;
    } else {
      assert (left + right)[1..] == left[1..] + right;
      StripsJoin(left[1..], right);
    }
  }

  lemma {:induction false} NoStrips(events: seq<EmailEvent>)
    ensures StripsOf(events) == [] <==> forall e | e in events :: e.email.content.stripped == []
  {
    if events != [] {
      NoStrips(events[1..]);
      assert events == [events[0]] + events[1..];
    }
  }

  /** Between two states of one run: these events were emitted, those refused, and every
      strip of either is on record, in order where no refused event had any. */
  ghost predicate Gained(s: State, t: State, emitted: seq<EmailEvent>, refused: seq<EmailEvent>) {
    && t.emitted == s.emitted + emitted && t.refused == s.refused + refused
    && |t.report.stripped| == |s.report.stripped| + |StripsOf(emitted)| + |StripsOf(refused)|
    && (StripsOf(refused) == [] ==> t.report.stripped == s.report.stripped + StripsOf(emitted))
  }

  ghost predicate Gains(s: State, t: State) {
    exists emitted, refused :: Gained(s, t, emitted, refused)
  }

  /** No event and no strip. */
  predicate SameMail(s: State, t: State) {
    t.emitted == s.emitted && t.refused == s.refused && t.report.stripped == s.report.stripped
  }

  lemma SameGains(s: State, t: State)
    requires SameMail(s, t)
    ensures Gains(s, t)
  {
    assert Gained(s, t, [], []);
  }

  lemma {:induction false} GainsCompose(s: State, t: State, u: State)
    requires Gains(s, t) && Gains(t, u)
    ensures Gains(s, u)
  {
    var e, r :| Gained(s, t, e, r);
    var e', r' :| Gained(t, u, e', r');
    GainedJoin(s, t, u, e, r, e', r');
  }

  lemma GainedJoin(s: State, t: State, u: State, e: seq<EmailEvent>, r: seq<EmailEvent>, e': seq<EmailEvent>,
                   r': seq<EmailEvent>)
    requires Gained(s, t, e, r) && Gained(t, u, e', r')
    ensures Gained(s, u, e + e', r + r')
  {
    StripsJoin(e, e');
    StripsJoin(r, r');
    assert u.emitted == s.emitted + (e + e') && u.refused == s.refused + (r + r');
    if StripsOf(r + r') == [] {
      assert StripsOf(r) == [] && StripsOf(r') == [];
      assert u.report.stripped == s.report.stripped + (StripsOf(e) + StripsOf(e'));
    }
  }

  lemma OneEvent(s: State, t: State, event: EmailEvent, accepted: bool)
    requires t.report.stripped == s.report.stripped + event.email.content.stripped
    requires t.emitted == (if accepted then s.emitted + [event] else s.emitted)
    requires t.refused == (if accepted then s.refused else s.refused + [event])
    ensures Gains(s, t)
  {
    var strips := event.email.content.stripped;
    assert [event][1..] == [] && StripsOf([]) == [];
    assert StripsOf([event]) == strips;
    if accepted {
      assert Gained(s, t, [event], []);
    } else {
      assert strips == [] ==> t.report.stripped == s.report.stripped;
      assert Gained(s, t, [], [event]);
    }
  }

  lemma {:induction false} WorkGains(cfg: Config, work: Work, now: Time, s: State, msg: RawMessage)
    ensures Gains(s, DoWork(cfg, work, now, s, msg).0)
  {
    var t, verdict := DoWork(cfg, work, now, s, msg).0, FilterChain.Run(work.verdicts);
    var asks := verdict.Ok? && cfg.classifies && verdict.value.decision == FilterChain.Uncertain;
    if work.parse.Raise? || verdict.Raise? || (verdict.value.decision == FilterChain.Drop && cfg.dropFiltered)
       || (asks && work.classify.Raise?) || work.extract.Raise? {
      SameGains(s, t);
    } else {
      var relevance := if asks then Some(work.classify.value) else None;
      var email := Stamped(work.extract.value, relevance, verdict.value);
      assert t == Deliver(cfg, work, now, s, msg, email).0;
      OneEvent(s, t, EventFor(cfg, msg, email), work.emit.Ok?);
    }
  }

  lemma DeadLetteringSame(cfg: Config, v: Visit, s: State, msg: RawMessage, reason: Reason, attempts: nat)
    ensures SameMail(s, DeadLettering(cfg, v, s, msg, reason, attempts).0)
  {
  }

  lemma {:induction false} RefreshGains(cfg: Config, v: Visit, s: State, msg: RawMessage)
    ensures Gains(s, RefreshAndRetryOnce(cfg, v, s, msg).0)
  {
    if cfg.refreshes && v.refresh.Raise? {
      SameGains(s, s);
    } else {
      var (worked, end) := DoWork(cfg, v.second, v.now, s, msg);
      WorkGains(cfg, v.second, v.now, s, msg);
      if end.Failing? {
        var reason := AuthRetryFailed(Auth, end.failure);
        DeadLetteringSame(cfg, v, worked, msg, reason, 1);
        SameGains(worked, DeadLettering(cfg, v, worked, msg, reason, 1).0);
        GainsCompose(s, worked, DeadLettering(cfg, v, worked, msg, reason, 1).0);
      }
    }
  }

  lemma {:induction false} AttemptGains(cfg: Config, v: Visit, s: State, msg: RawMessage)
    ensures Gains(s, Attempt(cfg, v, s, msg).0)
  {
    var attempts, t := Attempts(s.claims, KeyOf(cfg, msg)), Attempt(cfg, v, s, msg).0;
    if v.size.Raise? {
      SameGains(s, t);
    } else {
      var size := SizeOf(v.size.value, msg);
      if size <= 0 {
        DeadLetteringSame(cfg, v, s, msg, SizeUnknown(size), attempts);
        SameGains(s, t);
      } else if cfg.maxMessageBytes < size {
        DeadLetteringSame(cfg, v, s, msg, Oversized(size, cfg.maxMessageBytes), attempts);
        SameGains(s, t);
      } else {
        var (worked, end) := DoWork(cfg, v.first, v.now, s, msg);
        WorkGains(cfg, v.first, v.now, s, msg);
        match end
        case Completed(_) =>
        case Failing(Permanent) =>
          DeadLetteringSame(cfg, v, worked, msg, Failed(Permanent), attempts);
          SameGains(worked, t);
          GainsCompose(s, worked, t);
        case Failing(Auth) =>
          RefreshGains(cfg, v, worked, msg);
          GainsCompose(s, worked, t);
        case Failing(Transient) =>
          DeadLetteringSame(cfg, v, worked, msg, Failed(Transient), attempts);
          SameGains(worked, t);
          GainsCompose(s, worked, t);
      }
    }
  }

  /** A handler that puts every strip on record with its event. */
  ghost predicate Recording(handle: Handler) {
    forall s, msg :: Gains(s, handle(s, msg).0)
  }

  lemma {:induction false} ProcessRecords(cfg: Config, world: World)
    ensures Recording(Handling(cfg, world))
  {
    forall s, msg ensures Gains(s, Handling(cfg, world)(s, msg).0) {
      if Claimable(s.claims, KeyOf(cfg, msg)) {
        var entered, v := Entered(cfg, s, msg), world(s.visits, msg);
        AttemptGains(cfg, v, entered, msg);
        SameGains(s, entered);
        GainsCompose(s, entered, Attempt(cfg, v, entered, msg).0);
        assert Process(cfg, world, s, msg) == Attempt(cfg, v, entered, msg);
      } else {
        SameGains(s, Process(cfg, world, s, msg).0);
      }
    }
  }

  lemma {:induction false} StreamGains(cfg: Config, handle: Handler, s: State, stream: StreamRef,
                                       batch: seq<RawMessage>, blocked: bool)
    requires Recording(handle)
    ensures Gains(s, RunStream(cfg, handle, s, stream, batch, blocked).state)
    decreases |batch|
  {
    if batch == [] {
      SameGains(s, s);
    } else {
      var (next, step) := Advance(cfg, handle, s, stream, batch[0], blocked);
      var mid := handle(Counted(s), batch[0]).0;
      assert Gains(Counted(s), mid);
      SameGains(s, Counted(s));
      SameGains(mid, next);
      GainsCompose(s, Counted(s), mid);
      GainsCompose(s, mid, next);
      if !step.Escaped? {
        StreamGains(cfg, handle, next, stream, batch[1..], blocked || step.Pending?);
        GainsCompose(s, next, RunStream(cfg, handle, next, stream, batch[1..], blocked || step.Pending?).state);
      }
    }
  }

  lemma {:induction false} BoxesGain(cfg: Config, handle: Handler, feed: Feed, s: State, boxes: seq<Mailbox>)
    requires Recording(handle)
    ensures Gains(s, RunBoxes(cfg, handle, feed, s, boxes).state)
    decreases |boxes|
  {
    if boxes == [] {
      SameGains(s, s);
    } else {
      var batch := Fetch(feed, cfg, boxes[0], s.cursors);
      var first := RunStream(cfg, handle, s, boxes[0].stream, batch, false);
      StreamGains(cfg, handle, s, boxes[0].stream, batch, false);
      if !first.escaped {
        BoxesGain(cfg, handle, feed, first.state, boxes[1..]);
        GainsCompose(s, first.state, RunBoxes(cfg, handle, feed, first.state, boxes[1..]).state);
      }
    }
  }

  /** Over any run: the strips on record are exactly those of the mail emitted, in order, if
      and only if no emit raised on an event with strips; and they always number those of
      the emitted and the refused events together. */
  lemma {:induction false} StripsMatchExactly(cfg: Config, world: World, feed: Feed, s: State)
    ensures var t := RunOnce(cfg, world, feed, s).state;
            && s.emitted <= t.emitted && s.refused <= t.refused
            && (t.report.stripped == StripsOf(t.emitted[|s.emitted|..]) <==>
                  forall e | e in t.refused[|s.refused|..] :: e.email.content.stripped == [])
            && t.report.attachmentsStripped
               == |StripsOf(t.emitted[|s.emitted|..])| + |StripsOf(t.refused[|s.refused|..])|
  {
    var start, t := s.(report := EMPTY_REPORT), RunOnce(cfg, world, feed, s).state;
    ProcessRecords(cfg, world);
    BoxesGain(cfg, Handling(cfg, world), feed, start, feed.boxes);
    var emitted, refused :| Gained(start, t, emitted, refused);
    assert t.emitted[|s.emitted|..] == emitted && t.refused[|s.refused|..] == refused;
    assert [] + StripsOf(emitted) == StripsOf(emitted);
    NoStrips(refused);
    Runs.RunAccounting(cfg, world, feed, s);
  }
}
