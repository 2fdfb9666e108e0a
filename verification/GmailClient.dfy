/** The mail client's request loop: bounded retries with backoff, one credential refresh,
    and a bound on requests in flight. */
module GmailClient {
  import opened Models

  type interval = r: real | 0.0 <= r

  /** The server's Retry-After where it is a number: so many seconds, or infinitely many. */
  datatype Wish = Seconds(seconds: real) | Endless

  /** What one attempt meets: no token, no network, or a response. */
  datatype Reply =
    | NoToken
    | NetworkError
    | Response(status: int, retryAfter: Option<Wish>)

  /** The n-th attempt's reply and jitter, and whether a refresh raises. */
  datatype Server = Server(reply: nat -> Reply, jitter: nat -> interval, refreshFails: bool)

  /** `longest` is the longest sleep the platform accepts; a longer one raises. */
  datatype Settings = Settings(maxRetries: int, backoffBase: interval, longest: interval, refreshable: bool)

  datatype ErrorKind = AuthError | PermanentError | TransientError | OtherError

  datatype Outcome =
    | Success(status: int)
    | HttpError(kind: ErrorKind, status: int)
    | NetworkFailure
    | TokenFailure
    | SleepFailure
    | Saturated

  /** One sleep, and the delay the server had asked for. */
  datatype Sleep = Sleep(delay: real, asked: Option<real>)

  /** One call: how it ended, how many requests were sent, its sleeps, and how often
      credentials were refreshed. */
  datatype Call = Call(outcome: Outcome, requests: nat, sleeps: seq<Sleep>, refreshes: nat)

  predicate Retryable(reply: Reply) {
    reply.NetworkError? || (reply.Response? && (reply.status == 429 || reply.status >= 500))
  }

  predicate Rejected(reply: Reply) {
    reply.Response? && reply.status == 401
  }

  function ErrorFor(status: int): ErrorKind {
    if status == 401 then AuthError
    else if status in {403, 404, 410} then PermanentError
    else if status == 429 || status >= 500 then TransientError
    else OtherError
  }

  /** How a reply that is not retried ends the call. */
  function Ending(reply: Reply): Outcome {
    match reply
    case NoToken => TokenFailure
    case NetworkError => NetworkFailure
    case Response(status, _) => if status >= 400 then HttpError(ErrorFor(status), status) else Success(status)
  }

  function Pow2(n: nat): real {
    if n == 0 then 1.0 else 2.0 * Pow2(n - 1)
  }

  /** Exponential backoff with jitter, never shorter than the server asked for. */
  function Backoff(settings: Settings, attempt: nat, jitter: real, asked: Option<real>): Sleep {
    var delay := settings.backoffBase * Pow2(attempt) + jitter;
    Sleep(if asked.Some? && delay < asked.value then asked.value else delay, asked)
  }

  /** The sleep after a reply, unless the platform refuses it. */
  function SleepAfter(settings: Settings, attempt: nat, jitter: real, reply: Reply): Option<Sleep> {
    if RetryAfter(reply) == Some(Endless) then None
    else
      var asked := if RetryAfter(reply).Some? then Some(RetryAfter(reply).value.seconds) else None;
      var sleep := Backoff(settings, attempt, jitter, asked);
      if settings.longest < sleep.delay then None else Some(sleep)
  }

  function RetryAfter(reply: Reply): Option<Wish> {
    if reply.Response? then reply.retryAfter else None
  }

  /** What remains of the budget: retries, and the one refresh. */
  function Budget(settings: Settings, attempt: nat, refreshed: bool): nat {
    (if attempt < settings.maxRetries then settings.maxRetries - attempt else 0) + if refreshed then 0 else 1
  }

  /** The call from its n-th request on, after `attempt` retries. */
  function Attempted(settings: Settings, server: Server, n: nat, attempt: nat, refreshed: bool): Call
    decreases Budget(settings, attempt, refreshed)
  {
    var reply := server.reply(n);
    if reply.NoToken? then Call(TokenFailure, 0, [], 0)
    else if Retryable(reply) && attempt < settings.maxRetries then
      var sleep := SleepAfter(settings, attempt, server.jitter(n), reply);
      if sleep.None? then Call(SleepFailure, 1, [], 0)
      else
        var rest := Attempted(settings, server, n + 1, attempt + 1, refreshed);
        rest.(requests := rest.requests + 1, sleeps := [sleep.value] + rest.sleeps)
    else if Rejected(reply) && !refreshed && settings.refreshable then
      if server.refreshFails then Call(TokenFailure, 1, [], 1)
      else
        var rest := Attempted(settings, server, n + 1, attempt, true);
        rest.(requests := rest.requests + 1, refreshes := rest.refreshes + 1)
    else Call(Ending(reply), 1, [], 0)
  }

  // ---- Many callers ----

  datatype Move = Arrive(caller: nat) | Depart(caller: nat)

  /** The permits taken, and the callers whose call is under way. */
  datatype Gate = Gate(inFlight: int, inside: set<nat>)

  /** A caller has one call at a time; its departure gives its permit back. */
  function Moved(capacity: nat, gate: Gate, move: Move): Gate {
    match move
    case Arrive(caller) =>
      if caller in gate.inside || gate.inFlight == capacity then gate
          else Gate(gate.inFlight + 1, gate.inside + {caller})
    case Depart(caller) =>
      if caller in gate.inside then Gate(gate.inFlight - 1, gate.inside - {caller}) else gate
  }

  function AllMoved(capacity: nat, gate: Gate, moves: seq<Move>): Gate
    decreases |moves|
  {
    if moves == [] then gate else AllMoved(capacity, Moved(capacity, gate, moves[0]), moves[1..])
  }

  /** However callers come and go, the permits taken are the calls under way and never more
      than the capacity; so an arrival is shed exactly when the capacity is under way, and
      all permits are back when everyone is gone. */
  lemma {:induction false} PermitsAreCalls(capacity: nat, gate: Gate, moves: seq<Move>)
    requires gate.inFlight == |gate.inside| <= capacity
    ensures var end := AllMoved(capacity, gate, moves);
            end.inFlight == |end.inside| <= capacity
            && forall caller | caller !in end.inside ::
                 Moved(capacity, end, Arrive(caller)) == end <==> |end.inside| == capacity
    decreases |moves|
  {
    if moves != [] {
      PermitsAreCalls(capacity, Moved(capacity, gate, moves[0]), moves[1..]);
    }
  }

  class Client {
    const settings: Settings
    const capacity: nat
    var inFlight: nat

    constructor (settings: Settings, maxInFlight: int)
      ensures this.settings == settings && this.capacity == (if 1 < maxInFlight then maxInFlight else 1)
        && inFlight == 0
    {
      this.settings, this.capacity, this.inFlight := settings, if 1 < maxInFlight then maxInFlight else 1, 0;
    }

    /** A caller's arrival at the gate, whoever is inside. */
    method Acquire() returns (admitted: bool)
      requires inFlight <= capacity
      modifies this
      ensures inFlight <= capacity && admitted == (old(inFlight) < capacity)
      ensures inFlight == old(inFlight) + if admitted then 1 else 0
      ensures forall inside: set<nat>, caller: nat | caller !in inside ::
                Moved(capacity, Gate(old(inFlight), inside), Arrive(caller))
                    == Gate(inFlight, if admitted then inside + {caller} else inside)
    {
      admitted := inFlight < capacity;
      if admitted {
        inFlight := inFlight + 1;
      }
    }

    /** A caller's departure. */
    method Release()
      requires 0 < inFlight
      modifies this
      ensures inFlight == old(inFlight) - 1
      ensures forall inside: set<nat>, caller: nat | caller in inside ::
                Moved(capacity, Gate(old(inFlight), inside), Depart(caller)) == Gate(inFlight, inside - {caller})
    {
      inFlight := inFlight - 1;
    }

    /** A request is shed when too many are in flight; the permit comes back on every exit. */
    method Request(server: Server) returns (call: Call)
      requires inFlight <= capacity
      modifies this
      ensures inFlight == old(inFlight)
      ensures call == if old(inFlight) == capacity then Call(Saturated, 0, [], 0)
          else Attempted(settings, server, 0, 0, false)
    {
      var admitted := Acquire();
      if !admitted {
        return Call(Saturated, 0, [], 0);
      }
      call := RequestInner(server);
      Release();
    }

    method RequestInner(server: Server) returns (call: Call)
      ensures call == Attempted(settings, server, 0, 0, false)
    {
      var attempt, refreshed, requests, sleeps := 0, false, 0, [];
      while true
        invariant 0 <= attempt
        invariant var rest := Attempted(settings, server, requests, attempt, refreshed);
                  Attempted(settings, server, 0, 0, false)
                  == Call(rest.outcome, requests + rest.requests, sleeps + rest.sleeps,
                          (if refreshed then 1 else 0) + rest.refreshes)
        decreases Budget(settings, attempt, refreshed)
      {
        var reply := server.reply(requests);
        if reply.NoToken? {
          return Call(TokenFailure, requests, sleeps, if refreshed then 1 else 0);
        }
        if Retryable(reply) && attempt < settings.maxRetries {
          var sleep := SleepAfter(settings, attempt, server.jitter(requests), reply);
          if sleep.None? {
            assert sleeps + [] == sleeps;
            return Call(SleepFailure, requests + 1, sleeps, if refreshed then 1 else 0);
          }
          ghost var rest := Attempted(settings, server, requests + 1, attempt + 1, refreshed).sleeps;
          assert sleeps + ([sleep.value] + rest) == sleeps + [sleep.value] + rest;
          sleeps := sleeps + [sleep.value];
          requests, attempt := requests + 1, attempt + 1;
          continue;
        }
        requests := requests + 1;
        if Rejected(reply) && !refreshed && settings.refreshable {
          if server.refreshFails {
            return Call(TokenFailure, requests, sleeps, 1);
          }
          refreshed := true;
          continue;
        }
        return Call(Ending(reply), requests, sleeps, if refreshed then 1 else 0);
      }
    }
  }

  // ---- Bounds ----

  function Retries(settings: Settings): nat {
    if settings.maxRetries > 0 then settings.maxRetries else 0
  }

  lemma {:induction false} CallIsBounded(settings: Settings, server: Server, n: nat, attempt: nat, refreshed: bool)
    ensures var call := Attempted(settings, server, n, attempt, refreshed);
            && call.requests <= Budget(settings, attempt, refreshed) + 1
            && call.refreshes <= (if refreshed then 0 else 1)
            && |call.sleeps| <= Budget(settings, attempt, true)
            && call.requests <= |call.sleeps| + call.refreshes + 1
    decreases Budget(settings, attempt, refreshed)
  {
    var reply := server.reply(n);
    if !reply.NoToken? {
      if Retryable(reply) && attempt < settings.maxRetries {
        CallIsBounded(settings, server, n + 1, attempt + 1, refreshed);
      } else if Rejected(reply) && !refreshed && settings.refreshable && !server.refreshFails {
        CallIsBounded(settings, server, n + 1, attempt, true);
      }
    }
  }

  /** Whatever the server does: at most two requests more than the retries, at most that
      many sleeps and one refresh. */
  lemma RequestsAreBounded(settings: Settings, server: Server)
    ensures var call := Attempted(settings, server, 0, 0, false);
            call.requests <= Retries(settings) + 2 && |call.sleeps| <= Retries(settings) && call.refreshes <= 1
  {
    CallIsBounded(settings, server, 0, 0, false);
  }

  /** The platform accepts every backoff of the retries. */
  ghost predicate Patient(settings: Settings, server: Server) {
    forall attempt: nat, n {:trigger Backoff(settings, attempt, server.jitter(n),
                                             None)} | attempt < settings.maxRetries ::
      Backoff(settings, attempt, server.jitter(n), None).delay <= settings.longest
  }

  lemma {:induction false} UnavailableUsesEverything(settings: Settings, server: Server, n: nat, attempt: nat)
    requires forall m | n <= m :: server.reply(m) == Response(503, None)
    requires Patient(settings, server)
    ensures var call := Attempted(settings, server, n, attempt, true);
            && call.requests == Budget(settings, attempt, true) + 1
            && |call.sleeps| == Budget(settings, attempt, true)
            && call.outcome == HttpError(TransientError, 503)
    decreases Budget(settings, attempt, true)
  {
    if attempt < settings.maxRetries {
      UnavailableUsesEverything(settings, server, n + 1, attempt + 1);
    }
  }

  /** The bounds are reached, by a server that rejects once and is then never available. */
  lemma BoundsAreReached(settings: Settings, server: Server)
    requires settings.refreshable && !server.refreshFails
    requires server.reply(0) == Response(401, None)
    requires forall m | 1 <= m :: server.reply(m) == Response(503, None)
    requires Patient(settings, server)
    ensures var call := Attempted(settings, server, 0, 0, false);
            call.requests == Retries(settings) + 2 && |call.sleeps| == Retries(settings) && call.refreshes == 1
  {
    UnavailableUsesEverything(settings, server, 1, 0);
    CallIsBounded(settings, server, 1, 0, true);
  }

  // ---- Replies ----

  /** What a reply amounts to, status by status. */
  datatype Family = Tokenless | Answered | Throttled | Denied | Refused | Odd

  function FamilyOf(reply: Reply): Family {
    match reply
    case NoToken => Tokenless
    case NetworkError => Throttled
    case Response(status, _) =>
      if status < 400 then Answered
      else if 500 <= status then Throttled
      else
        match status
        case 401 => Denied
        case 403 => Refused
        case 404 => Refused
        case 410 => Refused
        case 429 => Throttled
        case _ => Odd
  }

  /** How a reply ends the call when it is not followed by another request. */
  predicate Ends(reply: Reply, outcome: Outcome) {
    match outcome
    case Success(status) => FamilyOf(reply) == Answered && status == reply.status
    case NetworkFailure => reply == NetworkError
    case TokenFailure => reply == NoToken
    case HttpError(kind, status) =>
      && reply.Response? && status == reply.status
      && (match FamilyOf(reply)
          case Denied => kind == AuthError
          case Refused => kind == PermanentError
          case Throttled => kind == TransientError
          case Odd => kind == OtherError
          case _ => false)
    case _ => false
  }

  lemma {:induction false} FamiliesAreMeant(reply: Reply)
    ensures Retryable(reply) <==> FamilyOf(reply) == Throttled
    ensures Rejected(reply) <==> FamilyOf(reply) == Denied
    ensures Ends(reply, Ending(reply))
  {
  }

  lemma {:induction false} LastReplyIsFinal(settings: Settings, server: Server, n: nat, attempt: nat, refreshed: bool)
    ensures var call := Attempted(settings, server, n, attempt, refreshed);
            && (!call.outcome.TokenFailure? && !call.outcome.SleepFailure? ==>
                  call.requests > 0 && call.outcome == Ending(server.reply(n + call.requests - 1)))
            && (!call.outcome.TokenFailure? && !call.outcome.SleepFailure?
                && Retryable(server.reply(n + call.requests - 1)) ==>
                  |call.sleeps| == Budget(settings, attempt, true))
            && (call.outcome == HttpError(AuthError, 401) && settings.refreshable && !refreshed ==> call.refreshes == 1)
            && (forall i | n <= i < n + call.requests - 1 :: Retryable(server.reply(i)) || Rejected(server.reply(i)))
    decreases Budget(settings, attempt, refreshed)
  {
    var reply := server.reply(n);
    if !reply.NoToken? {
      if Retryable(reply) && attempt < settings.maxRetries {
        LastReplyIsFinal(settings, server, n + 1, attempt + 1, refreshed);
      } else if Rejected(reply) && !refreshed && settings.refreshable && !server.refreshFails {
        LastReplyIsFinal(settings, server, n + 1, attempt, true);
        CallIsBounded(settings, server, n + 1, attempt, true);
      }
    }
  }

  /** The last reply decides, and a throttle is final only when no retry is left. */
  lemma {:induction false} LastReplyDecides(settings: Settings, server: Server, n: nat, attempt: nat, refreshed: bool)
    ensures var call := Attempted(settings, server, n, attempt, refreshed);
            && (!call.outcome.TokenFailure? && !call.outcome.SleepFailure? ==>
                  call.requests > 0 && Ends(server.reply(n + call.requests - 1), call.outcome))
            && (!call.outcome.TokenFailure? && !call.outcome.SleepFailure?
                && FamilyOf(server.reply(n + call.requests - 1)) == Throttled ==>
                  |call.sleeps| == Budget(settings, attempt, true))
            && (call.outcome == HttpError(AuthError, 401) && settings.refreshable && !refreshed ==> call.refreshes == 1)
            && (forall i | n <= i < n + call.requests - 1 :: FamilyOf(server.reply(i)) in {Throttled, Denied})
  {
    var call := Attempted(settings, server, n, attempt, refreshed);
    LastReplyIsFinal(settings, server, n, attempt, refreshed);
    forall i | n <= i < n + call.requests - 1 ensures FamilyOf(server.reply(i)) in {Throttled, Denied} {
      FamiliesAreMeant(server.reply(i));
    }
    if call.requests > 0 {
      FamiliesAreMeant(server.reply(n + call.requests - 1));
    }
  }

  /** Of the first `n` replies, those of this family. */
  function Count(server: Server, family: Family, n: nat): nat {
    if n == 0 then 0
    else Count(server, family, n - 1) + if FamilyOf(server.reply(n - 1)) == family then 1 else 0
  }

  /** The delay before retry `attempt + 1`: the base doubled `attempt` times plus jitter, or what the
      server asked for if that is longer. */
  function Delay(settings: Settings, attempt: nat, jitter: real, reply: Reply): Wish {
    var own := settings.backoffBase * Pow2(attempt) + jitter;
    match reply
    case Response(_, Some(Endless)) => Endless
    case Response(_, Some(Seconds(asked))) => Seconds(if own < asked then asked else own)
    case _ => Seconds(own)
  }

  /** The i-th reply was answered by a sleep, if a throttle, or by the refresh, and by another
      request: it is the so-many-th throttle, or the first denial. */
  predicate Continues(settings: Settings, server: Server, sleeps: seq<Sleep>, i: nat) {
    var attempt, reply := Count(server, Throttled, i), server.reply(i);
    match FamilyOf(reply)
    case Throttled =>
      && attempt < settings.maxRetries && attempt < |sleeps| && sleeps[attempt].delay <= settings.longest
      && Delay(settings, attempt, server.jitter(i), reply) == Seconds(sleeps[attempt].delay)
    case Denied => Count(server, Denied, i) == 0 && settings.refreshable && !server.refreshFails
    case _ => false
  }

  /** The first `n` replies were each followed by another request, with these sleeps. */
  ghost predicate Continued(settings: Settings, server: Server, n: nat, sleeps: seq<Sleep>) {
    |sleeps| == Count(server, Throttled, n) && forall i: nat | i < n :: Continues(settings, server, sleeps, i)
  }

  /** The call went on through the first `k` replies and ended at the next, which nothing can
      follow: no token was there for it, the sleep or the refresh due after it was refused, or
      neither was due. */
  ghost predicate StopsAt(settings: Settings, server: Server, call: Call, k: int) {
    && k >= 0 && Continued(settings, server, k, call.sleeps)
    && var reply, attempt, refreshes := server.reply(k), Count(server, Throttled, k), Count(server, Denied, k);
    if FamilyOf(reply) == Throttled && attempt < settings.maxRetries then
      && call.outcome == SleepFailure && call.requests == k + 1 && call.refreshes == refreshes
      && (match Delay(settings, attempt, server.jitter(k), reply)
          case Endless => true
          case Seconds(delay) => settings.longest < delay)
    else if FamilyOf(reply) == Denied && refreshes == 0 && settings.refreshable then
      call.outcome == TokenFailure && server.refreshFails && call.requests == k + 1 && call.refreshes == 1
    else
      && Ends(reply, call.outcome) && call.refreshes == refreshes
      && call.requests == if reply == NoToken then k else k + 1
  }

  ghost predicate Stops(settings: Settings, server: Server, call: Call) {
    exists k :: StopsAt(settings, server, call, k)
  }

  /** The call from here on, after what came before. */
  function After(n: nat, sleeps: seq<Sleep>, refreshes: nat, rest: Call): Call {
    Call(rest.outcome, n + rest.requests, sleeps + rest.sleeps, refreshes + rest.refreshes)
  }

  lemma ContinuesOn(settings: Settings, server: Server, n: nat, sleeps: seq<Sleep>, more: seq<Sleep>)
    requires Continued(settings, server, n, sleeps) && Continues(settings, server, sleeps + more, n)
    requires |more| == if FamilyOf(server.reply(n)) == Throttled then 1 else 0
    ensures Continued(settings, server, n + 1, sleeps + more)
  {
    forall i: nat | i < n + 1 ensures Continues(settings, server, sleeps + more, i) {
      if i < n {
        assert Continues(settings, server, sleeps, i);
      }
    }
  }

  lemma SleepIsDue(settings: Settings, server: Server, n: nat, sleeps: seq<Sleep>, sleep: Sleep)
    requires Continued(settings, server, n, sleeps) && |sleeps| < settings.maxRetries
    requires Retryable(server.reply(n))
    requires SleepAfter(settings, |sleeps|, server.jitter(n), server.reply(n)) == Some(sleep)
    ensures Continued(settings, server, n + 1, sleeps + [sleep])
    ensures Count(server, Denied, n + 1) == Count(server, Denied, n)
  {
    assert (sleeps + [sleep])[|sleeps|] == sleep;
    ContinuesOn(settings, server, n, sleeps, [sleep]);
  }

  lemma AfterSleep(settings: Settings, server: Server, n: nat, sleeps: seq<Sleep>, sleep: Sleep, refreshes: nat)
    requires |sleeps| < settings.maxRetries && Retryable(server.reply(n))
    requires SleepAfter(settings, |sleeps|, server.jitter(n), server.reply(n)) == Some(sleep)
    ensures After(n, sleeps, refreshes, Attempted(settings, server, n, |sleeps|, refreshes > 0))
         == After(n + 1, sleeps + [sleep], refreshes,
                  Attempted(settings, server, n + 1, |sleeps| + 1, refreshes > 0))
  {
    var later := Attempted(settings, server, n + 1, |sleeps| + 1, refreshes > 0);
    assert sleeps + ([sleep] + later.sleeps) == sleeps + [sleep] + later.sleeps;
  }

  lemma RefreshIsDue(settings: Settings, server: Server, n: nat, sleeps: seq<Sleep>)
    requires Continued(settings, server, n, sleeps) && Rejected(server.reply(n))
    requires Count(server, Denied, n) == 0 && settings.refreshable && !server.refreshFails
    ensures Continued(settings, server, n + 1, sleeps) && Count(server, Denied, n + 1) == 1
  {
    assert sleeps + [] == sleeps;
    ContinuesOn(settings, server, n, sleeps, []);
  }

  lemma StopsHere(settings: Settings, server: Server, n: nat, sleeps: seq<Sleep>)
    requires Continued(settings, server, n, sleeps)
    requires Retryable(server.reply(n)) && |sleeps| < settings.maxRetries ==>
               SleepAfter(settings, |sleeps|, server.jitter(n), server.reply(n)).None?
    requires Rejected(server.reply(n)) && settings.refreshable && Count(server, Denied, n) == 0 ==> server.refreshFails
    ensures var refreshes := Count(server, Denied, n);
            Stops(settings, server,
                  After(n, sleeps, refreshes, Attempted(settings, server, n, |sleeps|, refreshes > 0)))
  {
    var refreshes := Count(server, Denied, n);
    var call := After(n, sleeps, refreshes, Attempted(settings, server, n, |sleeps|, refreshes > 0));
    assert call.sleeps == sleeps;
    assert StopsAt(settings, server, call, n);
  }

  lemma {:induction false} RestFollows(settings: Settings, server: Server, n: nat, sleeps: seq<Sleep>)
    requires Continued(settings, server, n, sleeps)
    ensures var refreshes := Count(server, Denied, n);
            Stops(settings, server,
                  After(n, sleeps, refreshes, Attempted(settings, server, n, |sleeps|, refreshes > 0)))
    decreases Budget(settings, |sleeps|, Count(server, Denied, n) > 0)
  {
    var reply, attempt, refreshes := server.reply(n), |sleeps|, Count(server, Denied, n);
    var sleep := SleepAfter(settings, attempt, server.jitter(n), reply);
    if Retryable(reply) && attempt < settings.maxRetries && sleep.Some? {
      SleepIsDue(settings, server, n, sleeps, sleep.value);
      AfterSleep(settings, server, n, sleeps, sleep.value, refreshes);
      RestFollows(settings, server, n + 1, sleeps + [sleep.value]);
    } else if Rejected(reply) && refreshes == 0 && settings.refreshable && !server.refreshFails {
      RefreshIsDue(settings, server, n, sleeps);
      RestFollows(settings, server, n + 1, sleeps);
      assert After(n, sleeps, 0, Attempted(settings, server, n, attempt, false))
        == After(n + 1, sleeps, 1, Attempted(settings, server, n + 1, attempt, true));
    } else {
      StopsHere(settings, server, n, sleeps);
    }
  }

  /** Reply by reply: while retries are left each network error, 429 and server error is followed
      by one sleep of the due length and another request, the first 401 by the refresh and
      another request, and any other reply ends the call, as its status says. */
  lemma {:induction false} CallFollowsReplies(settings: Settings, server: Server)
    ensures Stops(settings, server, Attempted(settings, server, 0, 0, false))
  {
    RestFollows(settings, server, 0, []);
    var call := Attempted(settings, server, 0, 0, false);
    assert After(0, [], 0, call) == call;
  }

  // ---- Sleeps ----

  function Total(sleeps: seq<Sleep>): real {
    if sleeps == [] then 0.0 else sleeps[0].delay + Total(sleeps[1..])
  }

  /** The backoffs of `k` retries in a row, without jitter. */
  function Backoffs(base: real, attempt: nat, k: nat): real
    decreases k
  {
    if k == 0 then 0.0 else base * Pow2(attempt) + Backoffs(base, attempt + 1, k - 1)
  }

  function Times(k: nat, base: real): real {
    if k == 0 then 0.0 else base + Times(k - 1, base)
  }

  ghost predicate JitterWithin(settings: Settings, server: Server) {
    forall n {:trigger server.jitter(n)} :: server.jitter(n) <= settings.backoffBase
  }

  /** Each sleep is at least its exponential share and what the server asked for. */
  predicate LongEnough(settings: Settings, sleeps: seq<Sleep>, attempt: nat)
    decreases |sleeps|
  {
    sleeps != [] ==>
      && settings.backoffBase * Pow2(attempt) <= sleeps[0].delay
      && (sleeps[0].asked.Some? ==> sleeps[0].asked.value <= sleeps[0].delay)
      && LongEnough(settings, sleeps[1..], attempt + 1)
  }

  predicate Unhurried(sleeps: seq<Sleep>) {
    forall i | 0 <= i < |sleeps| :: sleeps[i].asked.None?
  }

  lemma {:induction false} EverySleepIsLongEnough(settings: Settings, server: Server, n: nat, attempt: nat,
                                                  refreshed: bool)
    ensures LongEnough(settings, Attempted(settings, server, n, attempt, refreshed).sleeps, attempt)
    decreases Budget(settings, attempt, refreshed)
  {
    var reply, sleeps := server.reply(n), Attempted(settings, server, n, attempt, refreshed).sleeps;
    if !reply.NoToken? {
      if Retryable(reply) && attempt < settings.maxRetries
        && SleepAfter(settings, attempt, server.jitter(n), reply).Some? {
        EverySleepIsLongEnough(settings, server, n + 1, attempt + 1, refreshed);
        assert sleeps[1..] == Attempted(settings, server, n + 1, attempt + 1, refreshed).sleeps;
      } else if Rejected(reply) && !refreshed && settings.refreshable && !server.refreshFails {
        EverySleepIsLongEnough(settings, server, n + 1, attempt, true);
      }
    }
  }

  predicate Exponential(base: real, attempt: nat, sleeps: seq<Sleep>) {
    Backoffs(base, attempt, |sleeps|) <= Total(sleeps) <= Backoffs(base, attempt, |sleeps|) + Times(|sleeps|, base)
  }

  lemma OneMoreSleep(base: real, attempt: nat, sleeps: seq<Sleep>, share: real)
    requires sleeps != [] && share == base * Pow2(attempt)
    requires share <= sleeps[0].delay <= share + base
    requires Exponential(base, attempt + 1, sleeps[1..])
    ensures Exponential(base, attempt, sleeps)
  {
  }

  lemma BackoffStaysNear(settings: Settings, attempt: nat, jitter: interval)
    requires jitter <= settings.backoffBase
    ensures var share := settings.backoffBase * Pow2(attempt);
            share <= Backoff(settings, attempt, jitter, None).delay <= share + settings.backoffBase
  {
  }

  lemma BackoffContinues(settings: Settings, attempt: nat, jitter: interval, sleeps: seq<Sleep>)
    requires sleeps != [] && sleeps[0] == Backoff(settings, attempt, jitter, None) && jitter <= settings.backoffBase
    requires Exponential(settings.backoffBase, attempt + 1, sleeps[1..])
    ensures Exponential(settings.backoffBase, attempt, sleeps)
  {
    BackoffStaysNear(settings, attempt, jitter);
    OneMoreSleep(settings.backoffBase, attempt, sleeps, settings.backoffBase * Pow2(attempt));
  }

  lemma UnaskedSleep(settings: Settings, attempt: nat, jitter: interval, reply: Reply)
    ensures var sleep := SleepAfter(settings, attempt, jitter, reply);
            sleep.Some? && sleep.value.asked.None? ==> sleep.value == Backoff(settings, attempt, jitter, None)
  {
  }

  lemma {:induction false} SleepsFrom(settings: Settings, server: Server, n: nat, attempt: nat, refreshed: bool)
    requires JitterWithin(settings, server)
    requires Unhurried(Attempted(settings, server, n, attempt, refreshed).sleeps)
    ensures Exponential(settings.backoffBase, attempt, Attempted(settings, server, n, attempt, refreshed).sleeps)
    decreases Budget(settings, attempt, refreshed)
  {
    var reply, sleeps := server.reply(n), Attempted(settings, server, n, attempt, refreshed).sleeps;
    if !reply.NoToken? {
      if Retryable(reply) && attempt < settings.maxRetries
        && SleepAfter(settings, attempt, server.jitter(n), reply).Some? {
        var rest := Attempted(settings, server, n + 1, attempt + 1, refreshed).sleeps;
        assert sleeps[0].asked.None?;
        UnaskedSleep(settings, attempt, server.jitter(n), reply);
        assert sleeps[0] == Backoff(settings, attempt, server.jitter(n), None);
        assert sleeps[1..] == rest && forall i | 0 <= i < |rest| :: rest[i] == sleeps[i + 1];
        SleepsFrom(settings, server, n + 1, attempt + 1, refreshed);
        BackoffContinues(settings, attempt, server.jitter(n), sleeps);
      } else if Rejected(reply) && !refreshed && settings.refreshable && !server.refreshFails {
        SleepsFrom(settings, server, n + 1, attempt, true);
      }
    }
  }

  lemma {:induction false} BackoffsAreGeometric(base: real, attempt: nat, k: nat)
    ensures Backoffs(base, attempt, k) == base * (Pow2(attempt + k) - Pow2(attempt))
    decreases k
  {
    if k > 0 {
      BackoffsAreGeometric(base, attempt + 1, k - 1);
      assert Backoffs(base, attempt, k) == base * Pow2(attempt) + base * (Pow2(attempt + k) - 2.0 * Pow2(attempt));
    }
  }

  lemma {:induction false} TimesIsProduct(k: nat, base: real)
    ensures Times(k, base) == base * k as real
  {
    if k > 0 {
      TimesIsProduct(k - 1, base);
      assert base * k as real == base * (k - 1) as real + base;
    }
  }

  /** k sleeps in all between `base * (2^k - 1)` and `base * (2^k - 1 + k)`. */
  predicate TotalIsExponential(base: real, sleeps: seq<Sleep>) {
    base * (Pow2(|sleeps|) - 1.0) <= Total(sleeps) <= base * (Pow2(|sleeps|) - 1.0 + |sleeps| as real)
  }

  lemma ExponentialInClosedForm(base: real, sleeps: seq<Sleep>)
    requires Exponential(base, 0, sleeps)
    ensures TotalIsExponential(base, sleeps)
  {
    BackoffsAreGeometric(base, 0, |sleeps|);
    TimesIsProduct(|sleeps|, base);
    assert base * (Pow2(|sleeps|) - 1.0) + base * |sleeps| as real == base * (Pow2(|sleeps|) - 1.0 + |sleeps| as real);
  }

  /** Where no Retry-After comes, the sleeps of a call add up as the backoff promises. */
  lemma SleepsAreExponential(settings: Settings, server: Server)
    requires JitterWithin(settings, server)
    requires Unhurried(Attempted(settings, server, 0, 0, false).sleeps)
    ensures TotalIsExponential(settings.backoffBase, Attempted(settings, server, 0, 0, false).sleeps)
  {
    SleepsFrom(settings, server, 0, 0, false);
    ExponentialInClosedForm(settings.backoffBase, Attempted(settings, server, 0, 0, false).sleeps);
  }
}
