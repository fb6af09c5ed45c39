/**
 What holds over whole runs of the server, for any clock behaviour: the columns that never
 change, terminal rows, the bookkeeping of attempts, and the composition of resets.
 */
module ServerRuns {
  import opened Commands
  import opened Server

  // ---------------------------------------------------------------- frozen columns

  predicate SameIdentity(before: Row, after: Row) {
    before.id == after.id && before.payload == after.payload && before.createdAt == after.createdAt
  }

  /** One operation never drops a row, never edits its identity, and never touches a terminal row. */
  lemma StepFreezes(s: State, op: Op, id: CommandId)
    requires Legal(s, op) && id in s.table
    ensures id in Apply(s, op).table
    ensures SameIdentity(s.table[id], Apply(s, op).table[id])
    ensures Terminal(s.table[id]) ==> Apply(s, op).table[id] == s.table[id]
  {}

  /** Over a whole run identity columns are immutable, and so is everything in a terminal row. */
  lemma {:induction false} RunFreezes(s: State, ops: seq<Op>, i: nat, k: nat, id: CommandId)
    requires i <= k <= |ops| && Run(s, ops) && id in At(s, ops, i).table
    ensures id in At(s, ops, k).table
    ensures SameIdentity(At(s, ops, i).table[id], At(s, ops, k).table[id])
    ensures Terminal(At(s, ops, i).table[id]) ==> At(s, ops, k).table[id] == At(s, ops, i).table[id]
    decreases k
  {
    if i < k {
      RunFreezes(s, ops, i, k - 1, id);
      assert Legal(At(s, ops, k - 1), ops[k - 1]);
      StepFreezes(At(s, ops, k - 1), ops[k - 1], id);
    }
  }

  // ---------------------------------------------------------------- what was asked for

  predicate Creates(op: Op, id: CommandId) {
    op.Create? && op.id == id
  }

  /** From the empty table: a row exists exactly if the run created it, which it did once, and the row
      still has the payload and the time of that very request. */
  lemma {:induction false} RowsAsCreated(ops: seq<Op>, k: nat, id: CommandId)
    requires k <= |ops| && Run(EMPTY, ops)
    ensures id in At(EMPTY, ops, k).table <==> exists i | 0 <= i < k :: Creates(ops[i], id)
    ensures forall i | 0 <= i < k && Creates(ops[i], id) ::
              && At(EMPTY, ops, k).table[id].payload == ops[i].payload
              && At(EMPTY, ops, k).table[id].createdAt == ops[i].now
    ensures forall i, j | 0 <= i < j < k :: !(Creates(ops[i], id) && Creates(ops[j], id))
  {
    if k > 0 {
      RowsAsCreated(ops, k - 1, id);
      var s, op := At(EMPTY, ops, k - 1), ops[k - 1];
      assert Legal(s, op);
      if id in s.table {
        StepFreezes(s, op, id);
      } else {
        AppearsByCreate(s, op, id);
      }
    }
  }

  lemma AppearsByCreate(s: State, op: Op, id: CommandId)
    requires Legal(s, op) && id !in s.table
    ensures id in Apply(s, op).table <==> Creates(op, id)
    ensures Creates(op, id) ==>
              Apply(s, op).table[id].payload == op.payload && Apply(s, op).table[id].createdAt == op.now
  {}

  predicate Hands(op: Op, l: LeaseId) {
    op.Claim? && op.pick.Some? && op.leaseId == l
  }

  /** What a grant must say for the claim it answers. */
  predicate AsClaimed(op: Op, g: Grant)
    requires op.Claim?
  {
    && g.agentId == op.agentId && op.pick == Some(g.response.commandId) && g.response.leaseId == op.leaseId
    && g.response.leaseExpiresAt == op.now + op.maxLeaseMs && g.response.startedAt == op.now
    && g.response.scheduledEndAt ==
       if g.response.payload.DelayPayload? then Some(op.now + g.response.payload.ms) else None
  }

  lemma StepGrants(s: State, op: Op, l: LeaseId)
    requires Inv(s) && Legal(s, op)
    ensures l in Apply(s, op).issued <==> l in s.issued || Hands(op, l)
    ensures l in s.issued ==> !Hands(op, l) && Apply(s, op).issued[l] == s.issued[l]
    ensures Hands(op, l) ==> AsClaimed(op, Apply(s, op).issued[l])
  {
    if Hands(op, l) {
      assert RowOk(s, op.pick.value);
    }
  }

  /** From the empty table: the grants are exactly those of the claims that returned a command, each
      for the agent, command, lease and times of its claim, and with the payload that was created. */
  lemma {:induction false} GrantsAsClaimed(ops: seq<Op>, k: nat, l: LeaseId)
    requires k <= |ops| && Run(EMPTY, ops)
    ensures l in At(EMPTY, ops, k).issued <==> exists i | 0 <= i < k :: Hands(ops[i], l)
    ensures forall i | 0 <= i < k && Hands(ops[i], l) :: AsClaimed(ops[i], At(EMPTY, ops, k).issued[l])
    ensures forall i | 0 <= i < k && Hands(ops[i], l) ::
              forall j | 0 <= j < k && Creates(ops[j], At(EMPTY, ops, k).issued[l].response.commandId) ::
                At(EMPTY, ops, k).issued[l].response.payload == ops[j].payload
  {
    GrantTimes(ops, k, l);
    RunKeepsInv(EMPTY, ops, k);
    if l in At(EMPTY, ops, k).issued {
      assert GrantOk(At(EMPTY, ops, k), l);
      RowsAsCreated(ops, k, At(EMPTY, ops, k).issued[l].response.commandId);
    }
  }

  lemma {:induction false} GrantTimes(ops: seq<Op>, k: nat, l: LeaseId)
    requires k <= |ops| && Run(EMPTY, ops)
    ensures l in At(EMPTY, ops, k).issued <==> exists i | 0 <= i < k :: Hands(ops[i], l)
    ensures forall i | 0 <= i < k && Hands(ops[i], l) :: AsClaimed(ops[i], At(EMPTY, ops, k).issued[l])
  {
    if k > 0 {
      GrantTimes(ops, k - 1, l);
      RunKeepsInv(EMPTY, ops, k - 1);
      assert Legal(At(EMPTY, ops, k - 1), ops[k - 1]);
      StepGrants(At(EMPTY, ops, k - 1), ops[k - 1], l);
    }
  }

  // ---------------------------------------------------------------- accounting

  /** Claims that returned the command. */
  function Claims(s: State, ops: seq<Op>, k: nat, id: CommandId): nat
    requires k <= |ops|
  {
    if k == 0 then 0
    else Claims(s, ops, k - 1, id) + if ops[k - 1].Claim? && ops[k - 1].pick == Some(id) then 1 else 0
  }

  predicate Resets(s: State, op: Op, id: CommandId) {
    op.Restart? && id in s.table && Expired(s.table[id], op.now)
  }

  /** Restarts that returned the command to PENDING. */
  function ResetCount(s: State, ops: seq<Op>, k: nat, id: CommandId): nat
    requires k <= |ops|
  {
    if k == 0 then 0
    else ResetCount(s, ops, k - 1, id) + if Resets(At(s, ops, k - 1), ops[k - 1], id) then 1 else 0
  }

  predicate Finishes(s: State, op: Op, id: CommandId) {
    (op.Complete? || op.Fail?) && op.id == id && Accepted(s, op)
  }

  /** Accepted complete and fail reports for the command. */
  function FinishCount(s: State, ops: seq<Op>, k: nat, id: CommandId): nat
    requires k <= |ops|
  {
    if k == 0 then 0
    else FinishCount(s, ops, k - 1, id) + if Finishes(At(s, ops, k - 1), ops[k - 1], id) then 1 else 0
  }

  ghost predicate Balanced(s: State, id: CommandId, claims: nat, resets: nat, finishes: nat) {
    if id in s.table then
      && s.table[id].attempt == claims
      && claims == resets + (if s.table[id].status == PENDING then 0 else 1)
      && finishes == (if Terminal(s.table[id]) then 1 else 0)
    else claims == 0 && resets == 0 && finishes == 0
  }

  lemma StepKeepsBalance(s: State, op: Op, id: CommandId, claims: nat, resets: nat, finishes: nat)
    requires Legal(s, op) && Balanced(s, id, claims, resets, finishes)
    ensures Balanced(Apply(s, op), id,
                     claims + if op.Claim? && op.pick == Some(id) then 1 else 0,
                     resets + if Resets(s, op, id) then 1 else 0,
                     finishes + if Finishes(s, op, id) then 1 else 0)
  {}

  /** In every run from the empty table `attempt` counts the claims, every claim is paid for by a
      reset or is still in force, and a command has one accepted terminal report exactly when
      it is terminal, never two. */
  lemma {:induction false} Accounting(ops: seq<Op>, k: nat, id: CommandId)
    requires k <= |ops| && Run(EMPTY, ops)
    ensures Balanced(At(EMPTY, ops, k), id, Claims(EMPTY, ops, k, id),
                     ResetCount(EMPTY, ops, k, id), FinishCount(EMPTY, ops, k, id))
  {
    if k > 0 {
      Accounting(ops, k - 1, id);
      var t := At(EMPTY, ops, k - 1);
      assert Legal(t, ops[k - 1]);
      StepKeepsBalance(t, ops[k - 1], id, Claims(EMPTY, ops, k - 1, id),
                       ResetCount(EMPTY, ops, k - 1, id), FinishCount(EMPTY, ops, k - 1, id));
    }
  }

  // ---------------------------------------------------------------- fencing

  /** A lease dies only by an expired reset or by an accepted terminal report that quotes it. */
  lemma LeaseEndsOnlyBy(s: State, op: Op, l: LeaseId)
    requires Inv(s) && Legal(s, op) && Live(s, l)
    ensures Dead(Apply(s, op), l) <==>
            || Resets(s, op, s.issued[l].response.commandId)
            || (Finishes(s, op, s.issued[l].response.commandId) && op.leaseId == l)
  {}

  /** Once a lease is dead, whoever quotes it later is refused and changes nothing. */
  lemma Fencing(s: State, ops: seq<Op>, i: nat, k: nat, l: LeaseId)
    requires Inv(s) && i <= k < |ops| && Run(s, ops)
    requires Dead(At(s, ops, i), l)
    requires IsReport(ops[k]) && ops[k].leaseId == l
    ensures !Accepted(At(s, ops, k), ops[k])
    ensures At(s, ops, k + 1) == At(s, ops, k)
  {
    DeadForever(s, ops, i, k, l);
    RunKeepsInv(s, ops, k);
    AcceptedIffLive(At(s, ops, k), ops[k]);
  }

  // ---------------------------------------------------------------- expiry

  predicate Unexpired(row: Row, now: int) {
    row.leaseExpiresAt.Some? && row.leaseExpiresAt.value > now
  }

  /** Startup recovery leaves exactly the live leases that have not run out. */
  lemma LiveAfterRestart(s: State, now: int, l: LeaseId)
    requires Inv(s) && l in s.issued
    ensures Live(Apply(s, Restart(now)), l) <==> Live(s, l) && Unexpired(s.table[s.issued[l].response.commandId], now)
  {
    assert GrantOk(s, l) && RowOk(s, s.issued[l].response.commandId);
  }

  /** A report that the server accepts comes under an unexpired lease exactly when a server that had
      just restarted would accept it too. */
  lemma AcceptedUnexpiredIff(s: State, op: Op, now: int)
    requires Inv(s) && IsReport(op) && Accepted(s, op)
    ensures Unexpired(s.table[op.id], now) <==> Accepted(Apply(s, Restart(now)), op)
  {
    assert RowOk(s, op.id);
  }

  // ---------------------------------------------------------------- resets

  function Later(a: int, b: int): int {
    if a < b then b else a
  }

  /** Two startup recoveries in a row are one at the later time, and their counts add up. */
  lemma ResetsCompose(t: Table, first: int, second: int)
    ensures ResetExpired(ResetExpired(t, first), second) == ResetExpired(t, Later(first, second))
    ensures |ExpiredIds(t, Later(first, second))| ==
            |ExpiredIds(t, first)| + |ExpiredIds(ResetExpired(t, first), second)|
  {
    var a, b := ExpiredIds(t, first), ExpiredIds(ResetExpired(t, first), second);
    assert a !! b;
    assert ExpiredIds(t, Later(first, second)) == a + b;
  }
}
