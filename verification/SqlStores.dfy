/** The SQLite and Postgres claim stores: rows of one table, updated in place by the
    statements each store issues.  Both are the claim machine. */
module SqlStores {
  import opened Models
  import opened ClaimMachine
  import MemoryStores

  /** One row of the `claims` table. */
  datatype Row = Row(done: bool, attempts: nat, claimed: bool, claimedAt: Time, expiresAt: Option<Time>)

  type Rows = map<string, Row>

  /** The columns' defaults. */
  const DEFAULT_ROW := Row(false, 0, false, 0.0, None)

  function EntryOf(row: Row): Entry {
    Entry(if row.done then Finished(row.expiresAt) else if row.claimed then Held(row.claimedAt) else Free, row.attempts)
  }

  /** The table as a claim machine. */
  function View(rows: Rows): Machine {
    map key | key in rows :: EntryOf(rows[key])
  }

  lemma ViewUpdates(rows: Rows, key: string, row: Row)
    ensures View(rows[key := row]) == View(rows)[key := EntryOf(row)]
  {
  }

  predicate LeaseFree(row: Row, lease: Time, now: Time) {
    !row.done && (!row.claimed || now - row.claimedAt >= lease)
  }

  predicate RowExpired(row: Row, now: Time) {
    row.done && row.expiresAt.Some? && row.expiresAt.value <= now
  }

  class SqliteDedupeStore {
    var rows: Rows

    constructor ()
      ensures rows == map[]
    {
      rows := map[];
    }

    /** `INSERT OR IGNORE`; says whether a row was inserted. */
    method InsertOrIgnore(key: string, row: Row) returns (inserted: bool)
      modifies this
      ensures inserted == (key !in old(rows))
      ensures rows == if inserted then old(rows)[key := row] else old(rows)
    {
      inserted := key !in rows;
      if inserted {
        rows := rows[key := row];
      }
    }

    /** Insert first; if the row existed, update it where it may be claimed. */
    method TryClaim(key: string, lease: Time, now: Time) returns (won: bool)
      modifies this
      ensures won == Claimable(old(View(rows)), key, lease, now)
      ensures View(rows) == Claimed(old(View(rows)), key, lease, now)
    {
      ghost var before := rows;
      var inserted := InsertOrIgnore(key, DEFAULT_ROW.(claimed := true, claimedAt := now));
      if inserted {
        ViewUpdates(before, key, rows[key]);
        return true;
      }
      if LeaseFree(rows[key], lease, now) {
        ViewUpdates(before, key, rows[key].(claimed := true, claimedAt := now));
        rows := rows[key := rows[key].(claimed := true, claimedAt := now)];
        return true;
      }
      return false;
    }

    method RecordAttempt(key: string) returns (attempts: nat)
      modifies this
      ensures attempts == EntryAt(old(View(rows)), key).attempts + 1
      ensures View(rows) == Attempted(old(View(rows)), key)
    {
      ghost var before := rows;
      var _ := InsertOrIgnore(key, DEFAULT_ROW);
      rows := rows[key := rows[key].(attempts := rows[key].attempts + 1)];
      ViewUpdates(before, key, rows[key]);
      assert rows == before[key := rows[key]];
      attempts := rows[key].attempts;
    }

    method MarkDone(key: string, ttl: Time, now: Time)
      modifies this
      ensures View(rows) == MarkedDone(old(View(rows)), key, now + ttl)
    {
      ghost var before := rows;
      var _ := InsertOrIgnore(key, DEFAULT_ROW);
      rows := rows[key := rows[key].(done := true, expiresAt := Some(now + ttl))];
      ViewUpdates(before, key, rows[key]);
      assert rows == before[key := rows[key]];
    }

    method Release(key: string)
      modifies this
      ensures View(rows) == Released(old(View(rows)), key)
    {
      if key in rows && !rows[key].done {
        ViewUpdates(rows, key, rows[key].(claimed := false));
        rows := rows[key := rows[key].(claimed := false)];
      }
    }

    method PurgeExpired(now: Time) returns (purged: nat)
      modifies this
      ensures purged == |ExpiredKeys(old(View(rows)), now)|
      ensures View(rows) == Purged(old(View(rows)), now)
    {
      var expired := set key | key in rows && RowExpired(rows[key], now);
      assert expired == ExpiredKeys(View(rows), now);
      assert View(rows - expired) == View(rows) - expired;
      rows := rows - expired;
      purged := |expired|;
    }

    method Perform(op: Op) returns (reply: Reply)
      modifies this
      ensures reply == ReplyTo(old(View(rows)), op)
      ensures View(rows) == Apply(old(View(rows)), op)
    {
      match op {
        case TryClaim(key, lease, now) =>
          var won := TryClaim(key, lease, now);
          reply := Won(won);
        case RecordAttempt(key) =>
          var attempts := RecordAttempt(key);
          reply := Attempt(attempts);
        case MarkDone(key, ttl, now) =>
          MarkDone(key, ttl, now);
          reply := Nothing;
        case Release(key) =>
          Release(key);
          reply := Nothing;
        case PurgeExpired(now) =>
          var purged := PurgeExpired(now);
          reply := Purge(purged);
      }
    }

    /** Any trace of operations gets the claim machine's replies. */
    method PerformAll(ops: seq<Op>) returns (replies: seq<Reply>)
      modifies this
      ensures replies == Replies(old(View(rows)), ops)
      ensures View(rows) == Final(old(View(rows)), ops)
    {
      ghost var start := View(rows);
      replies := [];
      for i := 0 to |ops|
        invariant Replies(start, ops) == replies + Replies(View(rows), ops[i..])
        invariant Final(start, ops) == Final(View(rows), ops[i..])
      {
        assert ops[i..][0] == ops[i] && ops[i..][1..] == ops[i + 1..];
        var reply := Perform(ops[i]);
        replies := replies + [reply];
      }
    }
  }

  class PostgresDedupeStore {
    var rows: Rows

    constructor ()
      ensures rows == map[]
    {
      rows := map[];
    }

    /** One upsert: insert, or update the existing row where it may be claimed. */
    method TryClaim(key: string, lease: Time, now: Time) returns (won: bool)
      modifies this
      ensures won == Claimable(old(View(rows)), key, lease, now)
      ensures View(rows) == Claimed(old(View(rows)), key, lease, now)
    {
      won := key in rows ==> LeaseFree(rows[key], lease, now);
      if won {
        var row := (if key in rows then rows[key] else DEFAULT_ROW).(claimed := true, claimedAt := now);
        ViewUpdates(rows, key, row);
        rows := rows[key := row];
      }
    }

    method RecordAttempt(key: string) returns (attempts: nat)
      modifies this
      ensures attempts == EntryAt(old(View(rows)), key).attempts + 1
      ensures View(rows) == Attempted(old(View(rows)), key)
    {
      ghost var before := rows;
      if key !in rows {
        rows := rows[key := DEFAULT_ROW];
      }
      rows := rows[key := rows[key].(attempts := rows[key].attempts + 1)];
      ViewUpdates(before, key, rows[key]);
      assert rows == before[key := rows[key]];
      attempts := rows[key].attempts;
    }

    /** One upsert: a missing row is inserted done. */
    method MarkDone(key: string, ttl: Time, now: Time)
      modifies this
      ensures View(rows) == MarkedDone(old(View(rows)), key, now + ttl)
    {
      var row := if key in rows then rows[key].(done := true, expiresAt := Some(now + ttl))
                 else DEFAULT_ROW.(done := true, expiresAt := Some(now + ttl));
      ViewUpdates(rows, key, row);
      rows := rows[key := row];
    }

    method Release(key: string)
      modifies this
      ensures View(rows) == Released(old(View(rows)), key)
    {
      if key in rows && !rows[key].done {
        ViewUpdates(rows, key, rows[key].(claimed := false));
        rows := rows[key := rows[key].(claimed := false)];
      }
    }

    method PurgeExpired(now: Time) returns (purged: nat)
      modifies this
      ensures purged == |ExpiredKeys(old(View(rows)), now)|
      ensures View(rows) == Purged(old(View(rows)), now)
    {
      var expired := set key | key in rows && RowExpired(rows[key], now);
      assert expired == ExpiredKeys(View(rows), now);
      assert View(rows - expired) == View(rows) - expired;
      rows := rows - expired;
      purged := |expired|;
    }

    method Perform(op: Op) returns (reply: Reply)
      modifies this
      ensures reply == ReplyTo(old(View(rows)), op)
      ensures View(rows) == Apply(old(View(rows)), op)
    {
      match op {
        case TryClaim(key, lease, now) =>
          var won := TryClaim(key, lease, now);
          reply := Won(won);
        case RecordAttempt(key) =>
          var attempts := RecordAttempt(key);
          reply := Attempt(attempts);
        case MarkDone(key, ttl, now) =>
          MarkDone(key, ttl, now);
          reply := Nothing;
        case Release(key) =>
          Release(key);
          reply := Nothing;
        case PurgeExpired(now) =>
          var purged := PurgeExpired(now);
          reply := Purge(purged);
      }
    }

    /** Any trace of operations gets the claim machine's replies. */
    method PerformAll(ops: seq<Op>) returns (replies: seq<Reply>)
      modifies this
      ensures replies == Replies(old(View(rows)), ops)
      ensures View(rows) == Final(old(View(rows)), ops)
    {
      ghost var start := View(rows);
      replies := [];
      for i := 0 to |ops|
        invariant Replies(start, ops) == replies + Replies(View(rows), ops[i..])
        invariant Final(start, ops) == Final(View(rows), ops[i..])
      {
        assert ops[i..][0] == ops[i] && ops[i..][1..] == ops[i + 1..];
        var reply := Perform(ops[i]);
        replies := replies + [reply];
      }
    }
  }

  // ---- Cursors ----

  /** The `cursors` table, by tenant and stream key: the in-memory store's contents. */
  class SqliteCursorStore {
    var rows: MemoryStores.Cursors

    constructor ()
      ensures rows == map[]
    {
      rows := map[];
    }

    /** Read the order, compare, then insert or replace. */
    method CommitIfAhead(tenant: string, stream: StreamRef, cursor: Cursor) returns (moved: bool)
      modifies this
      ensures moved == MemoryStores.Ahead(old(rows), (tenant, stream.Key()), cursor)
      ensures rows == MemoryStores.Committed(old(rows), (tenant, stream.Key()), cursor)
    {
      var slot := (tenant, stream.Key());
      var found := if slot in rows then Some(rows[slot].order) else None;
      if found.Some? && cursor.order <= found.value {
        return false;
      }
      rows := rows[slot := cursor];
      moved := true;
    }
  }

  class PostgresCursorStore {
    var rows: MemoryStores.Cursors

    constructor ()
      ensures rows == map[]
    {
      rows := map[];
    }

    /** One upsert, whose condition guards the update of an existing row. */
    method CommitIfAhead(tenant: string, stream: StreamRef, cursor: Cursor) returns (moved: bool)
      modifies this
      ensures moved == MemoryStores.Ahead(old(rows), (tenant, stream.Key()), cursor)
      ensures rows == MemoryStores.Committed(old(rows), (tenant, stream.Key()), cursor)
    {
      var slot := (tenant, stream.Key());
      if slot !in rows {
        rows := rows[slot := cursor];
        return true;
      }
      moved := rows[slot].order < cursor.order;
      if moved {
        rows := rows[slot := Cursor(cursor.value, cursor.order)];
      }
    }
  }
}
