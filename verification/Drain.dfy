/**
 Emptying the table: the order in which claims hand commands out, and what claims and reports
 close after a restart that frees every lease. This is the server's side only: which commands
 an agent can complete is the subject of module Recovery.
 */
module Drain {
  import opened Commands
  import opened Server
  import opened ServerRuns

  // ---------------------------------------------------------------- claim order

  ghost predicate ClaimsOnly(ops: seq<Op>) {
    forall k | 0 <= k < |ops| :: ops[k].Claim?
  }

  predicate PickedBefore(ops: seq<Op>, k: nat, id: CommandId)
    requires k <= |ops|
  {
    exists i | 0 <= i < k :: ops[i].Claim? && ops[i].pick == Some(id)
  }

  lemma ClaimTakesOne(s: State, op: Op, id: CommandId)
    requires Legal(s, op) && op.Claim?
    ensures Pending(Apply(s, op).table, id) <==> Pending(s.table, id) && op.pick != Some(id)
  {}

  /** During a run of claims the waiting commands are those of the start that were not yet handed out. */
  lemma {:induction false} StillPending(s: State, ops: seq<Op>, k: nat, id: CommandId)
    requires k <= |ops| && Run(s, ops) && ClaimsOnly(ops)
    ensures Pending(At(s, ops, k).table, id) <==> Pending(s.table, id) && !PickedBefore(ops, k, id)
  {
    if k > 0 {
      StillPending(s, ops, k - 1, id);
      assert Legal(At(s, ops, k - 1), ops[k - 1]);
      ClaimTakesOne(At(s, ops, k - 1), ops[k - 1], id);
      assert PickedBefore(ops, k, id) <==> PickedBefore(ops, k - 1, id) || ops[k - 1].pick == Some(id);
    }
  }

  lemma PickWasPending(s: State, ops: seq<Op>, i: nat, j: nat)
    requires i <= j < |ops| && Run(s, ops) && ClaimsOnly(ops) && ops[j].pick.Some?
    ensures Pending(At(s, ops, i).table, ops[j].pick.value)
    ensures !PickedBefore(ops, j, ops[j].pick.value)
  {
    var id := ops[j].pick.value;
    assert Legal(At(s, ops, j), ops[j]);
    StillPending(s, ops, j, id);
    StillPending(s, ops, i, id);
  }

  /** Claims with no insertion or reset between them hand out each command at most once, oldest
      first; ties are in no particular order. */
  lemma ClaimsAreOrdered(s: State, ops: seq<Op>, i: nat, j: nat)
    requires i < j < |ops| && Run(s, ops) && ClaimsOnly(ops) && ops[i].pick.Some? && ops[j].pick.Some?
    ensures ops[i].pick != ops[j].pick
    ensures Pending(s.table, ops[i].pick.value) && Pending(s.table, ops[j].pick.value)
    ensures s.table[ops[i].pick.value].createdAt <= s.table[ops[j].pick.value].createdAt
  {
    var a, b := ops[i].pick.value, ops[j].pick.value;
    PickWasPending(s, ops, 0, i);
    PickWasPending(s, ops, 0, j);
    PickWasPending(s, ops, i, j);
    assert Legal(At(s, ops, i), ops[i]);
    RunFreezes(s, ops, 0, i, a);
    RunFreezes(s, ops, 0, i, b);
  }

  /** When a claim finally finds nothing, every command that was waiting has been handed out. */
  lemma ClaimsDrainAll(s: State, ops: seq<Op>, k: nat, id: CommandId)
    requires k < |ops| && Run(s, ops) && ClaimsOnly(ops) && ops[k].pick == None
    ensures Pending(s.table, id) <==> PickedBefore(ops, k, id)
  {
    assert Legal(At(s, ops, k), ops[k]);
    StillPending(s, ops, k, id);
    if PickedBefore(ops, k, id) {
      var i :| 0 <= i < k && ops[i].pick == Some(id);
      PickWasPending(s, ops, 0, i);
    }
  }

  // ---------------------------------------------------------------- recovery

  /** The server's view of an agent that claims a command and completes it, with nobody in between;
      the result is whatever that agent reports. */
  datatype Round = Round(pick: CommandId, agentId: AgentId, leaseId: LeaseId, maxLeaseMs: int, now: int,
                         result: CommandResult)
  {
    function ClaimOp(): Op {
      Claim(Some(pick), agentId, leaseId, maxLeaseMs, now)
    }

    function CompleteOp(): Op {
      Complete(pick, agentId, leaseId, result)
    }
  }

  function AfterRound(s: State, r: Round): State {
    Apply(Apply(s, r.ClaimOp()), r.CompleteOp())
  }

  function AfterRounds(s: State, rounds: seq<Round>, k: nat): State
    requires k <= |rounds|
  {
    if k == 0 then s else AfterRound(AfterRounds(s, rounds, k - 1), rounds[k - 1])
  }

  ghost predicate LegalRounds(s: State, rounds: seq<Round>) {
    forall k {:trigger Legal(AfterRounds(s, rounds, k), rounds[k].ClaimOp())} | 0 <= k < |rounds| ::
      Legal(AfterRounds(s, rounds, k), rounds[k].ClaimOp())
  }

  /** The commands that are not terminal. */
  function OpenIds(t: Table): set<CommandId> {
    set id | id in t && !Terminal(t[id])
  }

  predicate NoneRunning(t: Table) {
    forall id | id in t :: t[id].status != RUNNING
  }

  predicate EveryLeaseExpired(t: Table, now: int) {
    forall id | id in t && t[id].leaseExpiresAt.Some? :: t[id].leaseExpiresAt.value <= now
  }

  /** Because a RUNNING row always has an expiry, one late enough restart leaves none RUNNING. */
  lemma RestartFreesAll(s: State, now: int)
    requires Inv(s) && EveryLeaseExpired(s.table, now)
    ensures NoneRunning(Apply(s, Restart(now)).table)
    ensures OpenIds(Apply(s, Restart(now)).table) == OpenIds(s.table)
    ensures Inv(Apply(s, Restart(now)))
  {
    StepKeepsInv(s, Restart(now));
    forall id | id in s.table ensures Apply(s, Restart(now)).table[id].status != RUNNING {
      assert RowOk(s, id);
    }
  }

  lemma RoundClosesOne(s: State, r: Round)
    requires NoneRunning(s.table) && Legal(s, r.ClaimOp())
    ensures NoneRunning(AfterRound(s, r).table)
    ensures r.pick in OpenIds(s.table) && OpenIds(AfterRound(s, r).table) == OpenIds(s.table) - {r.pick}
    ensures r.pick in AfterRound(s, r).table && AfterRound(s, r).table[r.pick].result == Some(r.result)
  {}

  lemma {:induction false} RoundsCloseOneEach(s: State, rounds: seq<Round>, k: nat)
    requires NoneRunning(s.table) && k <= |rounds| && LegalRounds(s, rounds)
    ensures NoneRunning(AfterRounds(s, rounds, k).table)
    ensures |OpenIds(AfterRounds(s, rounds, k).table)| == |OpenIds(s.table)| - k
  {
    if k > 0 {
      RoundsCloseOneEach(s, rounds, k - 1);
      var t := AfterRounds(s, rounds, k - 1);
      assert Legal(t, rounds[k - 1].ClaimOp());
      RoundClosesOne(t, rounds[k - 1]);
    }
  }

  lemma {:induction false} UnusedLease(used: set<LeaseId>) returns (bound: LeaseId)
    ensures forall l | l in used :: l < bound
  {
    bound := 0;
    if used != {} {
      var l :| l in used;
      var rest := used - {l};
      bound := UnusedLease(rest);
      if bound <= l {
        bound := l + 1;
      }
      assert forall m | m in used :: m == l || m in rest;
    }
  }

  lemma {:induction false} OldestOf(t: Table, ids: set<CommandId>) returns (oldest: CommandId)
    requires ids != {} && forall id | id in ids :: id in t
    ensures oldest in ids && forall id | id in ids :: t[oldest].createdAt <= t[id].createdAt
  {
    oldest :| oldest in ids;
    var rest := ids - {oldest};
    if rest != {} {
      var other := OldestOf(t, rest);
      if t[other].createdAt < t[oldest].createdAt {
        oldest := other;
      }
    }
  }

  /** While something is open and nothing runs, the server grants and closes a further command. */
  lemma RoundPossible(s: State)
    requires NoneRunning(s.table) && OpenIds(s.table) != {}
    ensures exists r: Round :: Legal(s, r.ClaimOp())
  {
    var id := OldestOf(s.table, OpenIds(s.table));
    var l := UnusedLease(s.issued.Keys);
    var r := Round(id, 0, l, 0, 0, DelayResult(true, 0));
    forall other | Pending(s.table, other) ensures s.table[id].createdAt <= s.table[other].createdAt {
      assert other in OpenIds(s.table);
    }
    assert Legal(s, r.ClaimOp());
  }

  /** The server holds nothing back: from any reachable table, after one restart late enough, each
      claim with its completion report closes exactly one command, a further one is granted exactly
      while one is open, and after the last one claims find nothing. */
  lemma RoundsCloseAll(s: State, now: int, rounds: seq<Round>)
    requires Inv(s) && EveryLeaseExpired(s.table, now) && LegalRounds(Apply(s, Restart(now)), rounds)
    ensures var end := AfterRounds(Apply(s, Restart(now)), rounds, |rounds|);
            && |rounds| == |OpenIds(s.table)| - |OpenIds(end.table)|
            && ((exists r: Round :: Legal(end, r.ClaimOp())) <==> |rounds| < |OpenIds(s.table)|)
            && (|rounds| == |OpenIds(s.table)| ==> forall id :: !Pending(end.table, id))
  {
    var start := Apply(s, Restart(now));
    RestartFreesAll(s, now);
    RoundsCloseOneEach(start, rounds, |rounds|);
    var end := AfterRounds(start, rounds, |rounds|);
    if OpenIds(end.table) != {} {
      RoundPossible(end);
    } else {
      forall id ensures !Pending(end.table, id) {
        assert id !in OpenIds(end.table);
      }
    }
  }
}
