/**
 The server as a transition system. Every operation is one SQL statement, or one transaction
 in the case of a claim, and SQLite runs them one at a time, so each is one atomic step on the
 table. A claim records what it handed out in `issued`; the server keeps no such record, it is
 the history against which leases and journals are judged.
 */
module Server {
  import opened Commands

  type Table = map<CommandId, Row>

  /** The holder of a lease and the response that carried it. */
  datatype Grant = Grant(agentId: AgentId, response: ClaimResponse)

  datatype State = State(table: Table, issued: map<LeaseId, Grant>)

  const EMPTY := State(map[], map[])

  // ---------------------------------------------------------------- rows

  function NewRow(id: CommandId, payload: Payload, createdAt: int): Row {
    Row(id, payload, PENDING, None, None, None, None, None, createdAt, None, 0, None)
  }

  function ScheduledEnd(payload: Payload, startedAt: int): Option<int> {
    match payload
    case DelayPayload(ms) => Some(startedAt + ms)
    case HttpGetJsonPayload(_) => None
  }

  function ClaimRow(row: Row, agentId: AgentId, leaseId: LeaseId, maxLeaseMs: int, now: int): Row {
    row.(status := RUNNING, agentId := Some(agentId), leaseId := Some(leaseId),
    leaseExpiresAt := Some(now + maxLeaseMs), startedAt := Some(now),
    attempt := row.attempt + 1, scheduledEndAt := ScheduledEnd(row.payload, now))
  }

  function CompleteRow(row: Row, result: CommandResult): Row {
    row.(status := COMPLETED, result := Some(result), leaseExpiresAt := None)
  }

  function FailRow(row: Row, error: string, result: Option<CommandResult>): Row {
    row.(status := FAILED, error := Some(error), result := result, leaseExpiresAt := None)
  }

  function ResetRow(row: Row): Row {
    row.(status := PENDING, agentId := None, leaseId := None, leaseExpiresAt := None,
    startedAt := None, scheduledEndAt := None)
  }

  predicate Expired(row: Row, now: int) {
    row.status == RUNNING && row.leaseExpiresAt.Some? && row.leaseExpiresAt.value <= now
  }

  function ResetIf(row: Row, now: int): Row {
    if Expired(row, now) then ResetRow(row) else row
  }

  predicate Terminal(row: Row) {
    row.status == COMPLETED || row.status == FAILED
  }

  function ResponseOf(row: Row): ClaimResponse
    requires row.leaseId.Some? && row.leaseExpiresAt.Some? && row.startedAt.Some?
  {
    ClaimResponse(row.id, row.payload, row.leaseId.value, row.leaseExpiresAt.value,
                  row.startedAt.value, row.scheduledEndAt)
  }

  // ---------------------------------------------------------------- tables

  predicate Pending(t: Table, id: CommandId) {
    id in t && t[id].status == PENDING
  }

  /** A row the claim query may return: ORDER BY createdAt leaves ties open. */
  ghost predicate OldestPending(t: Table, id: CommandId) {
    Pending(t, id) && forall other | Pending(t, other) :: t[id].createdAt <= t[other].createdAt
  }

  /** The WHERE clause that heartbeat, complete and fail share. It does not look at the expiry. */
  predicate Current(t: Table, id: CommandId, agentId: AgentId, leaseId: LeaseId) {
    id in t && t[id].status == RUNNING && t[id].agentId == Some(agentId) && t[id].leaseId == Some(leaseId)
  }

  function ExpiredIds(t: Table, now: int): set<CommandId> {
    set id | id in t && Expired(t[id], now)
  }

  function ResetExpired(t: Table, now: int): Table {
    map id | id in t :: ResetIf(t[id], now)
  }

  // ---------------------------------------------------------------- operations

  datatype Op =
    | Create(id: CommandId, payload: Payload, now: int)
    | Claim(pick: Option<CommandId>, agentId: AgentId, leaseId: LeaseId, maxLeaseMs: int, now: int)
    | Heartbeat(id: CommandId, agentId: AgentId, leaseId: LeaseId, extendMs: int, now: int)
    | Complete(id: CommandId, agentId: AgentId, leaseId: LeaseId, result: CommandResult)
    | Fail(id: CommandId, agentId: AgentId, leaseId: LeaseId, error: string, partial: Option<CommandResult>)
    | Restart(now: int)  // process restart: the table survives and startup recovery runs

  /** A report is a request whose fate the lease decides. */
  predicate IsReport(op: Op) {
    op.Heartbeat? || op.Complete? || op.Fail?
  }

  /** What the environment may ask: fresh UUIDs, and the claim query's own choice of row. */
  ghost predicate Legal(s: State, op: Op) {
    match op
    case Create(id, _, _) => id !in s.table
    case Claim(None, _, l, _, _) => l !in s.issued && forall id :: !Pending(s.table, id)
    case Claim(Some(id), _, l, _, _) => l !in s.issued && OldestPending(s.table, id)
    case _ => true
  }

  /** Whether a report changes a row, which is the success flag the client sees. */
  predicate Accepted(s: State, op: Op)
    requires IsReport(op)
  {
    Current(s.table, op.id, op.agentId, op.leaseId)
  }

  function Apply(s: State, op: Op): State {
    match op
    case Create(id, payload, now) => s.(table := s.table[id := NewRow(id, payload, now)])
    case Claim(None, _, _, _, _) => s
    case Claim(Some(id), a, l, maxLeaseMs, now) =>
      if id !in s.table then s else
      var row := ClaimRow(s.table[id], a, l, maxLeaseMs, now);
      State(s.table[id := row], s.issued[l := Grant(a, ResponseOf(row))])
    case Heartbeat(id, a, l, extendMs, now) =>
      if Current(s.table, id, a, l)
      then s.(table := s.table[id := s.table[id].(leaseExpiresAt := Some(now + extendMs))])
      else s
    case Complete(id, a, l, result) =>
      if Current(s.table, id, a, l)
      then s.(table := s.table[id := CompleteRow(s.table[id], result)])
      else s
    case Fail(id, a, l, error, partial) =>
      if Current(s.table, id, a, l)
      then s.(table := s.table[id := FailRow(s.table[id], error, partial)])
      else s
    case Restart(now) => s.(table := ResetExpired(s.table, now))
  }

  // ---------------------------------------------------------------- runs

  /** The state after the first k operations. */
  function At(s: State, ops: seq<Op>, k: nat): State
    requires k <= |ops|
  {
    if k == 0 then s else Apply(At(s, ops, k - 1), ops[k - 1])
  }

  /** ops is a run from s; the clock values in the operations are unconstrained. */
  ghost predicate Run(s: State, ops: seq<Op>) {
    forall k {:trigger Legal(At(s, ops, k), ops[k])} | 0 <= k < |ops| :: Legal(At(s, ops, k), ops[k])
  }

  // ---------------------------------------------------------------- invariant

  /** Which columns are NULL is decided by the status and the command type. */
  predicate RowShape(row: Row) {
    && (row.agentId.Some? <==> row.status != PENDING)
    && (row.leaseId.Some? <==> row.status != PENDING)
    && (row.startedAt.Some? <==> row.status != PENDING)
    && (row.leaseExpiresAt.Some? <==> row.status == RUNNING)
    && (row.scheduledEndAt.Some? <==> row.status != PENDING && row.payload.DelayPayload?)
    && (row.error.Some? <==> row.status == FAILED)
    && (row.status == COMPLETED ==> row.result.Some?)
    && (row.status == PENDING || row.status == RUNNING ==> row.result == None)
    && (row.scheduledEndAt.Some? ==> row.scheduledEndAt == ScheduledEnd(row.payload, row.startedAt.value))
  }

  /** The row still carries exactly what was issued with its lease. */
  predicate RowMatchesGrant(row: Row, g: Grant) {
    && row.agentId == Some(g.agentId)
    && row.id == g.response.commandId
    && row.payload == g.response.payload
    && row.startedAt == Some(g.response.startedAt)
    && row.scheduledEndAt == g.response.scheduledEndAt
  }

  /** The leases ever granted for a command. */
  ghost function GrantsOf(issued: map<LeaseId, Grant>, id: CommandId): set<LeaseId> {
    set l | l in issued && issued[l].response.commandId == id
  }

  ghost predicate RowOk(s: State, id: CommandId)
    requires id in s.table
  {
    var row := s.table[id];
    && row.id == id
    && RowShape(row)
    && row.attempt == |GrantsOf(s.issued, id)|
    && (row.leaseId.Some? ==>
          row.leaseId.value in s.issued && RowMatchesGrant(row, s.issued[row.leaseId.value]))
  }

  ghost predicate GrantOk(s: State, l: LeaseId)
    requires l in s.issued
  {
    var r := s.issued[l].response;
    && r.leaseId == l
    && r.commandId in s.table
    && r.payload == s.table[r.commandId].payload
    && r.scheduledEndAt == ScheduledEnd(r.payload, r.startedAt)
  }

  ghost predicate Inv(s: State) {
    && (forall id | id in s.table :: RowOk(s, id))
    && (forall l | l in s.issued :: GrantOk(s, l))
  }

  lemma GrantAdded(issued: map<LeaseId, Grant>, l: LeaseId, g: Grant, id: CommandId)
    requires l !in issued
    ensures |GrantsOf(issued[l := g], id)| ==
            |GrantsOf(issued, id)| + if g.response.commandId == id then 1 else 0
  {
    var before, after := GrantsOf(issued, id), GrantsOf(issued[l := g], id);
    if g.response.commandId == id {
      assert after == before + {l};
    } else {
      assert after == before;
    }
  }

  lemma ClaimKeepsRow(s: State, op: Op, id: CommandId)
    requires op.Claim? && op.pick.Some? && op.pick.value in s.table && op.leaseId !in s.issued
    requires s.table[op.pick.value].id == op.pick.value && s.table[op.pick.value].status == PENDING
    requires id in s.table && RowOk(s, id)
    ensures RowOk(Apply(s, op), id)
  {
    var row := ClaimRow(s.table[op.pick.value], op.agentId, op.leaseId, op.maxLeaseMs, op.now);
    GrantAdded(s.issued, op.leaseId, Grant(op.agentId, ResponseOf(row)), id);
  }

  lemma OtherKeepsRow(s: State, op: Op, id: CommandId)
    requires !(op.Claim? && op.pick.Some?) && (op.Create? ==> op.id !in s.table)
    requires id in s.table && RowOk(s, id)
    ensures Apply(s, op).issued == s.issued
    ensures id in Apply(s, op).table && RowOk(Apply(s, op), id)
  {}

  /** One operation keeps every row and every grant in order. */
  lemma StepKeepsInv(s: State, op: Op)
    requires Inv(s) && Legal(s, op)
    ensures Inv(Apply(s, op))
  {
    var s' := Apply(s, op);
    forall id | id in s'.table ensures RowOk(s', id) {
      if id !in s.table {
        NoGrantForNewId(s, id);
        assert GrantsOf(s'.issued, id) == {};
      } else if op.Claim? && op.pick.Some? {
        assert RowOk(s, id) && RowOk(s, op.pick.value);
        ClaimKeepsRow(s, op, id);
      } else {
        assert RowOk(s, id);
        OtherKeepsRow(s, op, id);
      }
    }
    forall l | l in s'.issued ensures GrantOk(s', l) {
      GrantStaysOk(s, op, l);
    }
  }

  lemma GrantStaysOk(s: State, op: Op, l: LeaseId)
    requires Inv(s) && Legal(s, op) && l in Apply(s, op).issued
    ensures GrantOk(Apply(s, op), l)
  {}

  lemma NoGrantForNewId(s: State, id: CommandId)
    requires Inv(s) && id !in s.table
    ensures GrantsOf(s.issued, id) == {}
  {}

  lemma {:induction false} RunKeepsInv(s: State, ops: seq<Op>, k: nat)
    requires Inv(s) && k <= |ops| && Run(s, ops)
    ensures Inv(At(s, ops, k))
  {
    if k > 0 {
      RunKeepsInv(s, ops, k - 1);
      assert Legal(At(s, ops, k - 1), ops[k - 1]);
      StepKeepsInv(At(s, ops, k - 1), ops[k - 1]);
    }
  }

  // ---------------------------------------------------------------- fencing

  /** The lease is the one its command is currently running under. */
  predicate Live(s: State, l: LeaseId) {
    && l in s.issued
    && Current(s.table, s.issued[l].response.commandId, s.issued[l].agentId, l)
  }

  /** Handed out once, and no longer current: reset, completed or failed. */
  predicate Dead(s: State, l: LeaseId) {
    l in s.issued && !Live(s, l)
  }

  /** Lease identity alone decides a report: it is accepted exactly when it quotes a live lease
      together with the command and the agent that lease was issued for. */
  lemma AcceptedIffLive(s: State, op: Op)
    requires Inv(s) && IsReport(op)
    ensures Accepted(s, op) <==>
            && Live(s, op.leaseId)
            && s.issued[op.leaseId].response.commandId == op.id
            && s.issued[op.leaseId].agentId == op.agentId
  {}

  /** At most one lease per command is ever live. */
  lemma OneLiveLeasePerCommand(s: State, l: LeaseId, m: LeaseId)
    requires Live(s, l) && Live(s, m)
    requires s.issued[l].response.commandId == s.issued[m].response.commandId
    ensures l == m
  {}

  /** A lease is carried by one row only, terminal rows included. */
  lemma OneCommandPerLease(s: State, i: CommandId, j: CommandId)
    requires Inv(s) && i in s.table && j in s.table
    requires s.table[i].leaseId.Some? && s.table[i].leaseId == s.table[j].leaseId
    ensures i == j
  {
    assert RowOk(s, i) && RowOk(s, j);
  }

  lemma DeadStaysDead(s: State, op: Op, l: LeaseId)
    requires Inv(s) && Legal(s, op) && Dead(s, l)
    ensures Dead(Apply(s, op), l)
  {}

  lemma {:induction false} DeadForever(s: State, ops: seq<Op>, i: nat, k: nat, l: LeaseId)
    requires Inv(s) && i <= k <= |ops| && Run(s, ops)
    requires Dead(At(s, ops, i), l)
    ensures Dead(At(s, ops, k), l)
    decreases k
  {
    if i < k {
      DeadForever(s, ops, i, k - 1, l);
      RunKeepsInv(s, ops, k - 1);
      var t, op := At(s, ops, k - 1), ops[k - 1];
      assert Legal(t, op);
      DeadStaysDead(t, op, l);
    }
  }
}
