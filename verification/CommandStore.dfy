/**
 The SQLite wrapper and the service above it, as objects that change rows in place. Rows are
 kept in insertion order; every method is proved to be one step of module Server.
 */
module CommandStore {
  import opened Commands
  import opened Server

  ghost predicate HasId(rows: seq<Row>, id: CommandId) {
    exists i | 0 <= i < |rows| :: rows[i].id == id
  }

  /** The rows, whose ids are distinct, are exactly the entries of the table. */
  ghost predicate Represents(rows: seq<Row>, t: Table) {
    && (forall i, j | 0 <= i < j < |rows| :: rows[i].id != rows[j].id)
    && (forall i | 0 <= i < |rows| :: rows[i].id in t && t[rows[i].id] == rows[i])
    && (forall id | id in t :: HasId(rows, id))
  }

  /** Writing one row in place is writing one entry of the table. */
  lemma RowWritten(rows: seq<Row>, t: Table, i: nat, row: Row)
    requires Represents(rows, t) && i < |rows| && row.id == rows[i].id
    ensures Represents(rows[i := row], t[row.id := row])
  {
    var after := rows[i := row];
    forall id | id in t[row.id := row] ensures HasId(after, id) {
      var j :| 0 <= j < |rows| && rows[j].id == id;
      assert after[j].id == id;
    }
  }

  lemma RowAppended(rows: seq<Row>, t: Table, row: Row)
    requires Represents(rows, t) && row.id !in t
    ensures Represents(rows + [row], t[row.id := row])
  {
    var after := rows + [row];
    assert after[|rows|] == row;
    forall id | id in t ensures HasId(after, id) {
      var j :| 0 <= j < |rows| && rows[j].id == id;
      assert after[j].id == id;
    }
  }

  /** The first n rows have been visited by the reset, the others have not. */
  ghost predicate ResetUpTo(before: seq<Row>, after: seq<Row>, n: nat, now: int) {
    && n <= |before| == |after|
    && (forall j | 0 <= j < n :: after[j] == ResetIf(before[j], now))
    && (forall j | n <= j < |before| :: after[j] == before[j])
  }

  lemma NothingResetYet(rows: seq<Row>, now: int)
    ensures ResetUpTo(rows, rows, 0, now)
  {}

  lemma ResetNext(before: seq<Row>, after: seq<Row>, n: nat, now: int)
    requires ResetUpTo(before, after, n, now) && n < |before|
    ensures after[n] == before[n] && ResetUpTo(before, after[n := ResetIf(before[n], now)], n + 1, now)
  {}

  lemma RowsReset(before: seq<Row>, t: Table, after: seq<Row>, now: int)
    requires Represents(before, t) && ResetUpTo(before, after, |before|, now)
    ensures Represents(after, ResetExpired(t, now))
  {}

  function CountExpired(rows: seq<Row>, n: nat, now: int): nat
    requires n <= |rows|
  {
    if n == 0 then 0 else CountExpired(rows, n - 1, now) + if Expired(rows[n - 1], now) then 1 else 0
  }

  /** Counting rows one by one counts the expired ids of the table. */
  lemma {:induction false} CountIsCardinality(rows: seq<Row>, t: Table, n: nat, now: int) returns (ids: set<CommandId>)
    requires Represents(rows, t) && n <= |rows|
    ensures |ids| == CountExpired(rows, n, now) && ids <= ExpiredIds(t, now)
    ensures forall j | 0 <= j < |rows| :: rows[j].id in ids <==> j < n && Expired(rows[j], now)
  {
    ids := {};
    if n > 0 {
      ids := CountIsCardinality(rows, t, n - 1, now);
      if Expired(rows[n - 1], now) {
        ids := ids + {rows[n - 1].id};
      }
    }
  }

  lemma CountAll(rows: seq<Row>, t: Table, now: int)
    requires Represents(rows, t)
    ensures CountExpired(rows, |rows|, now) == |ExpiredIds(t, now)|
  {
    var ids := CountIsCardinality(rows, t, |rows|, now);
    forall id | id in ExpiredIds(t, now) ensures id in ids {
      var j :| 0 <= j < |rows| && rows[j].id == id;
    }
    assert ids == ExpiredIds(t, now);
  }

  datatype StoreError = UniqueConstraint

  class CommandDatabase {
    var rows: seq<Row>
    ghost var table: Table
    ghost var issued: map<LeaseId, Grant>

    ghost predicate Valid()
      reads this
    {
      Represents(rows, table)
    }

    ghost function Contents(): State
      reads this
    {
      State(table, issued)
    }

    constructor ()
      ensures Valid() && Contents() == EMPTY
    {
      rows := [];
      table, issued := map[], map[];
    }

    method CreateCommand(id: CommandId, payload: Payload, createdAt: int) returns (r: Result<Row, StoreError>)
      requires Valid()
      modifies this
      ensures Valid()
      ensures r.Ok? <==> id !in old(Contents()).table
      ensures r.Ok? ==> Contents() == Apply(old(Contents()), Create(id, payload, createdAt))
      ensures r.Ok? ==> r.value == Contents().table[id]
      ensures r.Ok? ==> r.value == Row(id, payload, PENDING, None, None, None, None, None, createdAt, None, 0, None)
      ensures r.Err? ==> Contents() == old(Contents())
    {
      var i := SelectById(id);
      if i < |rows| {
        return Err(UniqueConstraint);
      }
      var row := NewRow(id, payload, createdAt);
      RowAppended(rows, table, row);
      rows, table := rows + [row], table[id := row];
      r := Ok(row);
    }

    /** The index of the row with this id, or |rows| when there is none. */
    method SelectById(id: CommandId) returns (i: nat)
      requires Valid()
      ensures i <= |rows|
      ensures i < |rows| <==> id in Contents().table
      ensures i < |rows| ==> rows[i].id == id && rows[i] == Contents().table[id]
    {
      i := 0;
      while i < |rows|
        invariant i <= |rows|
        invariant forall j | 0 <= j < i :: rows[j].id != id
      {
        if rows[i].id == id {
          return;
        }
        i := i + 1;
      }
    }

    method GetCommand(id: CommandId) returns (r: Option<Row>)
      requires Valid()
      ensures r == if id in Contents().table then Some(Contents().table[id]) else None
    {
      var i := SelectById(id);
      r := if i < |rows| then Some(rows[i]) else None;
    }

    /** SELECT_OLDEST_PENDING: the index of some oldest PENDING row, or |rows| when there is none. */
    method SelectOldestPending() returns (best: nat)
      requires Valid()
      ensures best <= |rows|
      ensures best < |rows| ==> OldestPending(Contents().table, rows[best].id)
      ensures best == |rows| ==> forall id :: !Pending(Contents().table, id)
    {
      best := |rows|;
      for i := 0 to |rows|
        invariant best <= |rows|
        invariant best == |rows| ==> forall j | 0 <= j < i :: rows[j].status != PENDING
        invariant best < |rows| ==> rows[best].status == PENDING
        invariant best < |rows| ==>
            forall j | 0 <= j < i && rows[j].status == PENDING :: rows[best].createdAt <= rows[j].createdAt
      {
        if rows[i].status == PENDING && (best == |rows| || rows[i].createdAt < rows[best].createdAt) {
          best := i;
        }
      }
    }

    /** The transaction of claimCommand: select the oldest PENDING row, then update it by id. */
    method ClaimCommand(agentId: AgentId, leaseId: LeaseId, maxLeaseMs: int, now: int) returns (r: Option<Row>)
      requires Valid() && leaseId !in issued
      modifies this
      ensures Valid()
      ensures var pick := if r.Some? then Some(r.value.id) else None;
              var op := Claim(pick, agentId, leaseId, maxLeaseMs, now);
              Legal(old(Contents()), op) && Contents() == Apply(old(Contents()), op)
      ensures r.Some? ==> r.value.id in Contents().table && r.value == Contents().table[r.value.id]
    {
      var i := SelectOldestPending();
      if i == |rows| {
        assert Legal(Contents(), Claim(None, agentId, leaseId, maxLeaseMs, now));
        return None;
      }
      var command := rows[i];
      var scheduledEndAt: Option<int> := None;
      if command.payload.Type() == DELAY {
        scheduledEndAt := Some(now + command.payload.ms);
      }
      var row := command.(status := RUNNING, agentId := Some(agentId), leaseId := Some(leaseId),
      leaseExpiresAt := Some(now + maxLeaseMs), startedAt := Some(now),
      attempt := command.attempt + 1, scheduledEndAt := scheduledEndAt);
      RowWritten(rows, table, i, row);
      rows, table := rows[i := row], table[row.id := row];
      issued := issued[leaseId := Grant(agentId, ResponseOf(row))];
      r := Some(row);
    }

    /** Finds the row a report is allowed to change: |rows| when the lease is not current. */
    method SelectCurrent(id: CommandId, agentId: AgentId, leaseId: LeaseId) returns (i: nat)
      requires Valid()
      ensures i <= |rows|
      ensures i < |rows| <==> Current(Contents().table, id, agentId, leaseId)
      ensures i < |rows| ==> rows[i].id == id && rows[i] == Contents().table[id]
    {
      i := SelectById(id);
      if i < |rows| &&
         (rows[i].status != RUNNING || rows[i].agentId != Some(agentId) || rows[i].leaseId != Some(leaseId)) {
        i := |rows|;
      }
    }

    method Heartbeat(id: CommandId, agentId: AgentId, leaseId: LeaseId, extendMs: int, now: int)
      returns (success: bool)
      requires Valid()
      modifies this
      ensures Valid()
      ensures var op := Server.Op.Heartbeat(id, agentId, leaseId, extendMs, now);
              success == Accepted(old(Contents()), op) && Contents() == Apply(old(Contents()), op)
    {
      var i := SelectCurrent(id, agentId, leaseId);
      if i == |rows| {
        return false;
      }
      var row := rows[i].(leaseExpiresAt := Some(now + extendMs));
      RowWritten(rows, table, i, row);
      rows, table := rows[i := row], table[row.id := row];
      success := true;
    }

    method CompleteCommand(id: CommandId, agentId: AgentId, leaseId: LeaseId, result: CommandResult)
      returns (success: bool)
      requires Valid()
      modifies this
      ensures Valid()
      ensures var op := Complete(id, agentId, leaseId, result);
              success == Accepted(old(Contents()), op) && Contents() == Apply(old(Contents()), op)
    {
      var i := SelectCurrent(id, agentId, leaseId);
      if i == |rows| {
        return false;
      }
      var row := rows[i].(status := COMPLETED, result := Some(result), leaseExpiresAt := None);
      RowWritten(rows, table, i, row);
      rows, table := rows[i := row], table[row.id := row];
      success := true;
    }

    method FailCommand(id: CommandId, agentId: AgentId, leaseId: LeaseId, error: string,
                       partial: Option<CommandResult>)
      returns (success: bool)
      requires Valid()
      modifies this
      ensures Valid()
      ensures var op := Fail(id, agentId, leaseId, error, partial);
              success == Accepted(old(Contents()), op) && Contents() == Apply(old(Contents()), op)
    {
      var i := SelectCurrent(id, agentId, leaseId);
      if i == |rows| {
        return false;
      }
      var row := rows[i].(status := FAILED, error := Some(error), result := partial, leaseExpiresAt := None);
      RowWritten(rows, table, i, row);
      rows, table := rows[i := row], table[row.id := row];
      success := true;
    }

    /** RESET_EXPIRED_LEASES, row by row; the result is the number of rows it changed. */
    method ResetExpiredLeases(now: int) returns (changes: nat)
      requires Valid()
      modifies this
      ensures Valid()
      ensures Contents() == Apply(old(Contents()), Restart(now))
      ensures changes == |ExpiredIds(old(Contents()).table, now)|
    {
      hide ResetUpTo, Represents, ResetExpired, ExpiredIds;
      changes := 0;
      ghost var before := rows;
      assert ResetUpTo(before, rows, 0, now) by {
        NothingResetYet(before, now);
      }
      for i := 0 to |rows|
        invariant |rows| == |before| && table == old(table) && issued == old(issued)
        invariant ResetUpTo(before, rows, i, now)
        invariant changes == CountExpired(before, i, now)
      {
        ResetNext(before, rows, i, now);
        var row := rows[i];
        if row.status == RUNNING && row.leaseExpiresAt.Some? && row.leaseExpiresAt.value <= now {
          rows := rows[i := ResetRow(row)];
          changes := changes + 1;
        } else {
          assert rows[i := row] == rows;
        }
      }
      CountAll(before, table, now);
      RowsReset(before, table, rows, now);
      table := ResetExpired(table, now);
    }
  }

  // ---------------------------------------------------------------- service

  /** A request payload: the fields that validation looks at, absent when missing or of another JSON type. */
  datatype RawPayload = NoPayload | Fields(ms: Option<int>, url: Option<string>)

  datatype ServiceError = InvalidCommandType | InvalidPayload | CommandNotFound | LeaseConflict

  datatype CommandView = CommandView(status: Status, result: Option<CommandResult>, agentId: Option<AgentId>)

  /** The service: clock readings and fresh UUIDs arrive as parameters. */
  class CommandService {
    const db: CommandDatabase

    constructor (db: CommandDatabase)
      ensures this.db == db
    {
      this.db := db;
    }

    method CreateCommand(typeName: string, payload: RawPayload, id: CommandId, now: int)
      returns (r: Result<CommandId, ServiceError>)
      requires db.Valid() && id !in db.Contents().table
      modifies db
      ensures db.Valid()
      ensures r == Err(InvalidCommandType) <==> typeName != "DELAY" && typeName != "HTTP_GET_JSON"
      ensures r.Ok? && typeName == "DELAY" ==>
                payload.Fields? && payload.ms.Some? &&
                db.Contents() == Apply(old(db.Contents()), Create(id, DelayPayload(payload.ms.value), now))
      ensures r.Ok? && typeName == "HTTP_GET_JSON" ==>
                payload.Fields? && payload.url.Some? &&
                db.Contents() == Apply(old(db.Contents()), Create(id, HttpGetJsonPayload(payload.url.value), now))
      ensures r == Err(InvalidPayload) ==>
                payload.NoPayload? || (if typeName == "DELAY" then payload.ms == None else payload.url == None)
      ensures r.Ok? ==>
                && r.value == id && id in db.Contents().table && db.Contents().table[id].status == PENDING
                && db.Contents().table[id].createdAt == now
                && db.Contents().table[id].payload ==
                   if typeName == "DELAY" then DelayPayload(payload.ms.value) else HttpGetJsonPayload(payload.url.value)
      ensures r.Err? ==> r.error in {InvalidCommandType, InvalidPayload} && db.Contents() == old(db.Contents())
    {
      if typeName != "DELAY" && typeName != "HTTP_GET_JSON" {
        return Err(InvalidCommandType);
      }
      if payload.NoPayload? {
        return Err(InvalidPayload);
      }
      var typed: Payload;
      if typeName == "DELAY" {
        if payload.ms == None {
          return Err(InvalidPayload);
        }
        typed := DelayPayload(payload.ms.value);
      } else {
        if payload.url == None {
          return Err(InvalidPayload);
        }
        typed := HttpGetJsonPayload(payload.url.value);
      }
      var record := db.CreateCommand(id, typed, now);
      r := Ok(record.value.id);
    }

    method GetCommand(id: CommandId) returns (r: Result<CommandView, ServiceError>)
      requires db.Valid()
      ensures r == if id in db.Contents().table
                   then var row := db.Contents().table[id]; Ok(CommandView(row.status, row.result, row.agentId))
                   else Err(CommandNotFound)
    {
      var command := db.GetCommand(id);
      if command == None {
        return Err(CommandNotFound);
      }
      r := Ok(CommandView(command.value.status, command.value.result, command.value.agentId));
    }

    /** The response is the grant that the history records for the new lease. */
    method ClaimNextCommand(agentId: AgentId, leaseId: LeaseId, maxLeaseMs: int, now: int)
      returns (r: Option<ClaimResponse>)
      requires db.Valid() && leaseId !in db.issued
      modifies db
      ensures db.Valid()
      ensures var op := Claim(if r.Some? then Some(r.value.commandId) else None, agentId, leaseId, maxLeaseMs, now);
              Legal(old(db.Contents()), op) && db.Contents() == Apply(old(db.Contents()), op)
      ensures r.Some? ==> leaseId in db.issued && db.issued[leaseId] == Grant(agentId, r.value)
      ensures r.Some? ==>
                && r.value.leaseId == leaseId && r.value.leaseExpiresAt == now + maxLeaseMs && r.value.startedAt == now
                && r.value.commandId in old(db.Contents()).table
                && r.value.payload == old(db.Contents()).table[r.value.commandId].payload
                && r.value.scheduledEndAt ==
                   if r.value.payload.DelayPayload? then Some(now + r.value.payload.ms) else None
    {
      var command := db.ClaimCommand(agentId, leaseId, maxLeaseMs, now);
      if command == None {
        return None;
      }
      var row := command.value;
      r := Some(ClaimResponse(row.id, row.payload, row.leaseId.value, row.leaseExpiresAt.value,
                              row.startedAt.value, row.scheduledEndAt));
    }

    method RecordHeartbeat(id: CommandId, agentId: AgentId, leaseId: LeaseId, extendMs: int, now: int)
      returns (r: Result<(), ServiceError>)
      requires db.Valid()
      modifies db
      ensures db.Valid()
      ensures var op := Heartbeat(id, agentId, leaseId, extendMs, now);
              && db.Contents() == Apply(old(db.Contents()), op)
              && r == if Accepted(old(db.Contents()), op) then Ok(()) else Err(LeaseConflict)
    {
      var success := db.Heartbeat(id, agentId, leaseId, extendMs, now);
      r := if success then Ok(()) else Err(LeaseConflict);
    }

    method CompleteCommand(id: CommandId, agentId: AgentId, leaseId: LeaseId, result: CommandResult)
      returns (r: Result<(), ServiceError>)
      requires db.Valid()
      modifies db
      ensures db.Valid()
      ensures var op := Complete(id, agentId, leaseId, result);
              && db.Contents() == Apply(old(db.Contents()), op)
              && r == if Accepted(old(db.Contents()), op) then Ok(()) else Err(LeaseConflict)
    {
      var success := db.CompleteCommand(id, agentId, leaseId, result);
      r := if success then Ok(()) else Err(LeaseConflict);
    }

    method FailCommand(id: CommandId, agentId: AgentId, leaseId: LeaseId, error: string,
                       partial: Option<CommandResult>)
      returns (r: Result<(), ServiceError>)
      requires db.Valid()
      modifies db
      ensures db.Valid()
      ensures var op := Fail(id, agentId, leaseId, error, partial);
              && db.Contents() == Apply(old(db.Contents()), op)
              && r == if Accepted(old(db.Contents()), op) then Ok(()) else Err(LeaseConflict)
    {
      var success := db.FailCommand(id, agentId, leaseId, error, partial);
      r := if success then Ok(()) else Err(LeaseConflict);
    }

    method ResetExpiredLeases(now: int) returns (changes: nat)
      requires db.Valid()
      modifies db
      ensures db.Valid()
      ensures db.Contents() == Apply(old(db.Contents()), Restart(now))
      ensures changes == |ExpiredIds(old(db.Contents()).table, now)|
    {
      changes := db.ResetExpiredLeases(now);
    }
  }
}
