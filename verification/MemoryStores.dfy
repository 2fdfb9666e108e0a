/** The in-memory stores.  Each class updates one insertion-ordered dictionary in place;
    the functions beside it say what each update does to the dictionary's value. */
module MemoryStores {
  import opened Models
  import opened Observability

  // ---- Cursors ----

  /** Cursors by tenant and stream key. */
  type Cursors = map<(string, string), Cursor>

  /** Where the stream's cursor stands; a stream without one starts at zero. */
  function Position(cursors: Cursors, slot: (string, string)): int {
    if slot in cursors then cursors[slot].order else 0
  }

  predicate Ahead(cursors: Cursors, slot: (string, string), cursor: Cursor) {
    slot in cursors ==> cursors[slot].order < cursor.order
  }

  function Committed(cursors: Cursors, slot: (string, string), cursor: Cursor): Cursors {
    if Ahead(cursors, slot, cursor) then cursors[slot := cursor] else cursors
  }

  function CommitAll(cursors: Cursors, slot: (string, string), attempts: seq<Cursor>): Cursors
    decreases |attempts|
  {
    if attempts == [] then cursors
    else CommitAll(Committed(cursors, slot, attempts[0]), slot, attempts[1..])
  }

  /** However commits interleave, the slot ends at the greatest order ever offered or held,
      it never moves back on the way, and no other slot is touched. */
  lemma {:induction false} CommitsKeepTheGreatest(cursors: Cursors, slot: (string, string), attempts: seq<Cursor>)
    ensures var end := CommitAll(cursors, slot, attempts);
            && (slot in cursors || attempts != [] <==> slot in end)
            && (slot in cursors ==> cursors[slot].order <= end[slot].order)
            && (forall c | c in attempts :: slot in end && c.order <= end[slot].order)
            && (slot in end ==> (slot in cursors && end[slot] == cursors[slot]) || end[slot] in attempts)
            && (forall other | other != slot ::
                  (other in end <==> other in cursors) && (other in cursors ==> end[other] == cursors[other]))
    decreases |attempts|
  {
    if attempts != [] {
      var next := Committed(cursors, slot, attempts[0]);
      CommitsKeepTheGreatest(next, slot, attempts[1..]);
      assert attempts == [attempts[0]] + attempts[1..];
    }
  }

  class InMemoryCursorStore {
    var cursors: Cursors

    constructor ()
      ensures cursors == map[]
    {
      cursors := map[];
    }

    method Get(tenant: string, stream: StreamRef) returns (cursor: Option<Cursor>)
      ensures cursor.Some? <==> (tenant, stream.Key()) in cursors
      ensures cursor.Some? ==> cursor.value == cursors[(tenant, stream.Key())]
    {
      var slot := (tenant, stream.Key());
      cursor := if slot in cursors then Some(cursors[slot]) else None;
    }

    method CommitIfAhead(tenant: string, stream: StreamRef, cursor: Cursor) returns (moved: bool)
      modifies this
      ensures moved == Ahead(old(cursors), (tenant, stream.Key()), cursor)
      ensures cursors == Committed(old(cursors), (tenant, stream.Key()), cursor)
    {
      var slot := (tenant, stream.Key());
      if slot in cursors && cursor.order <= cursors[slot].order {
        return false;
      }
      cursors := cursors[slot := cursor];
      return true;
    }
  }

  // ---- Claims ----

  datatype ClaimRecord = ClaimRecord(claimed: bool, done: bool, attempts: nat, expiresAt: Option<Time>)

  type Claims = map<string, ClaimRecord>

  predicate IsDone(claims: Claims, key: string) {
    key in claims && claims[key].done
  }

  function Attempts(claims: Claims, key: string): nat {
    if key in claims then claims[key].attempts else 0
  }

  predicate Claimable(claims: Claims, key: string) {
    key in claims ==> !claims[key].done && !claims[key].claimed
  }

  function Claimed(claims: Claims, key: string): Claims
    requires Claimable(claims, key)
  {
    claims[key := if key in claims then claims[key].(claimed := true) else ClaimRecord(true, false, 0, None)]
  }

  function Attempted(claims: Claims, key: string): Claims {
    var rec := if key in claims then claims[key] else ClaimRecord(true, false, 0, None);
    claims[key := rec.(attempts := rec.attempts + 1)]
  }

  function Finished(claims: Claims, key: string, expiresAt: Time): Claims {
    var rec := if key in claims then claims[key] else ClaimRecord(false, false, 0, None);
    claims[key := rec.(done := true, expiresAt := Some(expiresAt))]
  }

  function Released(claims: Claims, key: string): Claims {
    if key in claims && !claims[key].done then claims[key := claims[key].(claimed := false)] else claims
  }

  predicate Expired(rec: ClaimRecord, now: Time) {
    rec.done && rec.expiresAt.Some? && rec.expiresAt.value <= now
  }

  function Purged(claims: Claims, now: Time): Claims {
    map key | key in claims && !Expired(claims[key], now) :: claims[key]
  }

  class InMemoryDedupeStore {
    var claims: Claims

    constructor ()
      ensures claims == map[]
    {
      claims := map[];
    }

    /** The lease is accepted and ignored: expiry is not simulated in memory. */
    method TryClaim(key: string, leaseSeconds: int) returns (won: bool)
      modifies this
      ensures won == Claimable(old(claims), key)
      ensures claims == if won then Claimed(old(claims), key) else old(claims)
    {
      if key !in claims {
        claims := claims[key := ClaimRecord(true, false, 0, None)];
        return true;
      }
      var rec := claims[key];
      if rec.done || rec.claimed {
        return false;
      }
      claims := claims[key := rec.(claimed := true)];
      return true;
    }

    method RecordAttempt(key: string) returns (attempts: nat)
      modifies this
      ensures claims == Attempted(old(claims), key)
      ensures attempts == Attempts(claims, key)
    {
      var rec := if key in claims then claims[key] else ClaimRecord(true, false, 0, None);
      attempts := rec.attempts + 1;
      claims := claims[key := rec.(attempts := attempts)];
    }

    method MarkDone(key: string, ttlSeconds: Time, now: Time)
      modifies this
      ensures claims == Finished(old(claims), key, now + ttlSeconds)
    {
      var rec := if key in claims then claims[key] else ClaimRecord(false, false, 0, None);
      claims := claims[key := rec.(done := true, expiresAt := Some(now + ttlSeconds))];
    }

    method Release(key: string)
      modifies this
      ensures claims == Released(old(claims), key)
    {
      if key in claims && !claims[key].done {
        claims := claims[key := claims[key].(claimed := false)];
      }
    }

    method PurgeExpired(now: Time) returns (purged: nat)
      modifies this
      ensures claims == Purged(old(claims), now)
      ensures purged == |set key | key in old(claims) && Expired(old(claims)[key], now)|
    {
      var before := claims;
      var expired := set key | key in claims && Expired(claims[key], now);
      var left := expired;
      while left != {}
        invariant left <= expired
        invariant claims == map key | key in before && key !in expired - left :: before[key]
        decreases |left|
      {
        var key :| key in left;
        claims := claims - {key};
        left := left - {key};
      }
      assert left == {};
      forall key ensures key in claims <==> key in Purged(before, now) {
        assert key in claims <==> key in before && key !in expired;
      }
      purged := |expired|;
    }
  }

  // ---- Dead letters ----

  /** Records in insertion order, at most one for each record id. */
  type DeadLetters = seq<DeadLetterRecord>

  predicate Holds(records: DeadLetters, id: string) {
    records != [] && (records[0].recordId == id || Holds(records[1..], id))
  }

  predicate DistinctIds(records: DeadLetters) {
    records != [] ==> !Holds(records[1..], records[0].recordId) && DistinctIds(records[1..])
  }

  /** An overwritten record keeps its place; a new one goes to the end. */
  function Put(records: DeadLetters, record: DeadLetterRecord): DeadLetters {
    if records == [] then [record]
    else if records[0].recordId == record.recordId then [record] + records[1..]
    else [records[0]] + Put(records[1..], record)
  }

  function Without(records: DeadLetters, id: string): DeadLetters {
    if records == [] then []
    else if records[0].recordId == id then Without(records[1..], id)
    else [records[0]] + Without(records[1..], id)
  }

  /** Putting a record stores it under its id and leaves every other id's record as it was. */
  lemma {:induction false} PutStores(records: DeadLetters, record: DeadLetterRecord)
    ensures record in Put(records, record)
    ensures forall id :: Holds(Put(records, record), id) <==> Holds(records, id) || id == record.recordId
    ensures forall r: DeadLetterRecord | r.recordId != record.recordId :: r in Put(records, record) <==> r in records
    ensures DistinctIds(records) ==> DistinctIds(Put(records, record))
  {
    if records != [] {
      PutStores(records[1..], record);
      assert records == [records[0]] + records[1..];
    }
  }

  lemma {:induction false} PutAt(records: DeadLetters, record: DeadLetterRecord, i: nat)
    requires i <= |records| && forall j | 0 <= j < i :: records[j].recordId != record.recordId
    requires i < |records| ==> records[i].recordId == record.recordId
    ensures Put(records, record) == if i < |records| then records[i := record] else records + [record]
  {
    if i > 0 {
      PutAt(records[1..], record, i - 1);
      assert records == [records[0]] + records[1..];
    }
  }

  /** Deleting an id removes its record and nothing else. */
  lemma {:induction false} WithoutRemoves(records: DeadLetters, id: string)
    ensures forall r :: r in Without(records, id) <==> r in records && r.recordId != id
    ensures forall other :: Holds(Without(records, id), other) <==> Holds(records, other) && other != id
    ensures !Holds(records, id) ==> Without(records, id) == records
    ensures DistinctIds(records) ==> DistinctIds(Without(records, id))
  {
    if records != [] {
      WithoutRemoves(records[1..], id);
      assert records == [records[0]] + records[1..];
    }
  }

  lemma {:induction false} WithoutSnoc(records: DeadLetters, last: DeadLetterRecord, id: string)
    ensures Without(records + [last], id) == Without(records, id) + if last.recordId == id then [] else [last]
  {
    if records != [] {
      WithoutSnoc(records[1..], last, id);
      assert (records + [last])[1..] == records[1..] + [last];
    }
  }

  /** The records a listing with this limit shows. */
  function Pending(records: DeadLetters, limit: Option<nat>): DeadLetters {
    if limit.Some? && limit.value < |records| then records[..limit.value] else records
  }

  class InMemoryDeadLetterStore {
    var records: DeadLetters

    ghost predicate Valid()
      reads this
    {
      DistinctIds(records)
    }

    constructor ()
      ensures records == []
    {
      records := [];
    }

    method PutRecord(record: DeadLetterRecord)
      requires Valid()
      modifies this
      ensures Valid()
      ensures records == Put(old(records), record)
    {
      var before := records;
      var i := 0;
      while i < |before| && before[i].recordId != record.recordId
        invariant 0 <= i <= |before|
        invariant forall j | 0 <= j < i :: before[j].recordId != record.recordId
      {
        i := i + 1;
      }
      PutStores(before, record);
      PutAt(before, record, i);
      records := if i < |before| then before[i := record] else before + [record];
    }

    method ListPending(limit: Option<nat>) returns (pending: seq<DeadLetterRecord>)
      ensures pending == Pending(records, limit)
    {
      pending := if limit.Some? && limit.value < |records| then records[..limit.value] else records;
    }

    method Delete(id: string)
      requires Valid()
      modifies this
      ensures Valid()
      ensures records == Without(old(records), id)
    {
      var before, kept := records, [];
      for i := 0 to |before|
        invariant kept == Without(before[..i], id)
      {
        WithoutSnoc(before[..i], before[i], id);
        assert before[..i + 1] == before[..i] + [before[i]];
        if before[i].recordId != id {
          kept := kept + [before[i]];
        }
      }
      assert before[..|before|] == before;
      WithoutRemoves(before, id);
      records := kept;
    }
  }
}
