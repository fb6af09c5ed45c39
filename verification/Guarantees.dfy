/**
 What the system promises, for every run with any number of agents, crashes, restarts and lost
 or delayed messages. None of it depends on the clock.
 */
module Guarantees {
  import opened Commands
  import opened Server
  import opened ServerRuns
  import opened AgentMachine
  import opened QueueSystem
  import opened SystemInv

  // ---------------------------------------------------------------- the server's share of a run

  function OpsOf(steps: seq<Step>, k: nat): seq<Op>
    requires k <= |steps|
  {
    if k == 0 then []
    else OpsOf(steps, k - 1) + if steps[k - 1].Serve? then [steps[k - 1].op] else []
  }

  lemma {:induction false} AtShared(s: State, shorter: seq<Op>, longer: seq<Op>, k: nat)
    requires k <= |shorter| <= |longer| && longer[..|shorter|] == shorter
    ensures At(s, longer, k) == At(s, shorter, k)
    decreases k
  {
    if k > 0 {
      AtShared(s, shorter, longer, k - 1);
      assert longer[k - 1] == longer[..|shorter|][k - 1];
    }
  }

  lemma RunExtends(s: State, ops: seq<Op>, op: Op)
    requires Run(s, ops) && Legal(At(s, ops, |ops|), op)
    ensures Run(s, ops + [op]) && At(s, ops + [op], |ops| + 1) == Apply(At(s, ops, |ops|), op)
  {
    forall k | 0 <= k < |ops| + 1 ensures Legal(At(s, ops + [op], k), (ops + [op])[k]) {
      AtShared(s, ops, ops + [op], k);
      if k < |ops| {
        assert Legal(At(s, ops, k), ops[k]);
      }
    }
    AtShared(s, ops, ops + [op], |ops|);
  }

  lemma {:induction false} ServerRunOf(w: World, steps: seq<Step>, timed: bool, k: nat)
    requires Behavior(w, steps, timed) && k <= |steps|
    ensures Run(EMPTY, OpsOf(steps, k))
    ensures At(EMPTY, OpsOf(steps, k), |OpsOf(steps, k)|) == WorldAt(w, steps, k).server
    decreases k
  {
    if k > 0 {
      ServerRunOf(w, steps, timed, k - 1);
      assert Allowed(WorldAt(w, steps, k - 1), steps[k - 1], timed);
      if steps[k - 1].Serve? {
        RunExtends(EMPTY, OpsOf(steps, k - 1), steps[k - 1].op);
      } else {
        assert OpsOf(steps, k) == OpsOf(steps, k - 1);
      }
    }
  }

  lemma {:induction false} OpsOfPrefix(steps: seq<Step>, i: nat, k: nat)
    requires i <= k <= |steps|
    ensures |OpsOf(steps, i)| <= |OpsOf(steps, k)| && OpsOf(steps, k)[..|OpsOf(steps, i)|] == OpsOf(steps, i)
    decreases k
  {
    if i < k {
      OpsOfPrefix(steps, i, k - 1);
    }
  }

  /** What the server does in a run of the system is a run of the server alone, and passes through
      the same states, so fencing, accounting, refinement and everything else proved about server
      runs, between any two of their states, holds here too. */
  lemma ServerRunWithin(w: World, steps: seq<Step>, timed: bool, i: nat, k: nat)
    requires Behavior(w, steps, timed) && i <= k <= |steps|
    ensures Run(EMPTY, OpsOf(steps, k)) && |OpsOf(steps, i)| <= |OpsOf(steps, k)|
    ensures At(EMPTY, OpsOf(steps, k), |OpsOf(steps, i)|) == WorldAt(w, steps, i).server
    ensures At(EMPTY, OpsOf(steps, k), |OpsOf(steps, k)|) == WorldAt(w, steps, k).server
  {
    ServerRunOf(w, steps, timed, i);
    ServerRunOf(w, steps, timed, k);
    OpsOfPrefix(steps, i, k);
    AtShared(EMPTY, OpsOf(steps, i), OpsOf(steps, k), |OpsOf(steps, i)|);
  }

  /** Between any two states of a run of the system no row is lost, its identity stays, and a
      terminal row stays as it is. */
  lemma RowsFrozen(w: World, steps: seq<Step>, timed: bool, i: nat, k: nat, id: CommandId)
    requires Behavior(w, steps, timed) && i <= k <= |steps| && id in WorldAt(w, steps, i).server.table
    ensures id in WorldAt(w, steps, k).server.table
    ensures var before, after := WorldAt(w, steps, i).server.table[id], WorldAt(w, steps, k).server.table[id];
            SameIdentity(before, after) && (Terminal(before) ==> after == before)
  {
    ServerRunWithin(w, steps, timed, i, k);
    RunFreezes(EMPTY, OpsOf(steps, k), |OpsOf(steps, i)|, |OpsOf(steps, k)|, id);
  }

  /** An agent executes what the client asked for: the payload it starts with is that of the one
      request that created the command. */
  lemma ExecutesAsCreated(w: World, steps: seq<Step>, timed: bool, k: nat, agentId: AgentId)
    requires Behavior(w, steps, timed) && k <= |steps| && agentId in WorldAt(w, steps, k).agents
    requires WorldAt(w, steps, k).agents[agentId].pc.Starting?
    ensures var pc, ops := WorldAt(w, steps, k).agents[agentId].pc, OpsOf(steps, k);
            exists i | 0 <= i < |ops| :: Creates(ops[i], pc.j.commandId) && ops[i].payload == pc.payload
  {
    var now, ops := WorldAt(w, steps, k), OpsOf(steps, k);
    var pc := now.agents[agentId].pc;
    BehaviorKeepsSysInv(w, steps, timed, k);
    ServerRunWithin(w, steps, timed, k, k);
    assert AgentOk(now.server.issued, now.fetches, now.fetched, agentId, now.agents[agentId]);
    assert GrantOk(now.server, pc.j.leaseId);
    RowsAsCreated(ops, |ops|, pc.j.commandId);
    var i :| 0 <= i < |ops| && Creates(ops[i], pc.j.commandId);
    assert ops[i].payload == pc.payload;
  }

  /** In every run of the system a command has one accepted terminal report if it is terminal, and
      none before, and was claimed once per reset and once more if it is not waiting. */
  lemma OneTerminalReport(w: World, steps: seq<Step>, timed: bool, k: nat, id: CommandId)
    requires Behavior(w, steps, timed) && k <= |steps|
    ensures var ops := OpsOf(steps, k);
            Balanced(WorldAt(w, steps, k).server, id, Claims(EMPTY, ops, |ops|, id),
                     ResetCount(EMPTY, ops, |ops|, id), FinishCount(EMPTY, ops, |ops|, id))
  {
    ServerRunWithin(w, steps, timed, k, k);
    Accounting(OpsOf(steps, k), |OpsOf(steps, k)|, id);
  }

  /** Once a lease is dead, every report quoting it, journal replays by a recovered agent included,
      is refused and leaves the server as it was. */
  lemma FencedForever(w: World, steps: seq<Step>, timed: bool, i: nat, k: nat, op: Op)
    requires Behavior(w, steps, timed) && i <= k < |steps| && steps[k] == Serve(op) && IsReport(op)
    requires Dead(WorldAt(w, steps, i).server, op.leaseId)
    ensures !Accepted(WorldAt(w, steps, k).server, op)
    ensures WorldAt(w, steps, k + 1).server == WorldAt(w, steps, k).server
  {
    var ops := OpsOf(steps, k + 1);
    ServerRunWithin(w, steps, timed, i, k + 1);
    ServerRunWithin(w, steps, timed, k, k + 1);
    OpsOfPrefix(steps, i, k);
    Fencing(EMPTY, ops, |OpsOf(steps, i)|, |OpsOf(steps, k)|, op.leaseId);
  }

  // ---------------------------------------------------------------- fetches

  /** Outbound requests made on behalf of a command. */
  function FetchesFor(issued: Issued, fetches: seq<LeaseId>, id: CommandId, n: nat): nat
    requires n <= |fetches|
  {
    if n == 0 then 0
    else FetchesFor(issued, fetches, id, n - 1) +
         if fetches[n - 1] in issued && issued[fetches[n - 1]].response.commandId == id then 1 else 0
  }

  lemma {:induction false} FetchedLeases(issued: Issued, fetches: seq<LeaseId>, id: CommandId, n: nat)
    returns (leases: set<LeaseId>)
    requires n <= |fetches| && forall i, j | 0 <= i < j < |fetches| :: fetches[i] != fetches[j]
    ensures |leases| == FetchesFor(issued, fetches, id, n) && leases <= GrantsOf(issued, id)
    ensures forall l | l in leases :: l in fetches[..n]
  {
    leases := {};
    if n > 0 {
      leases := FetchedLeases(issued, fetches, id, n - 1);
      assert fetches[..n] == fetches[..n - 1] + [fetches[n - 1]];
      if fetches[n - 1] in issued && issued[fetches[n - 1]].response.commandId == id {
        leases := leases + {fetches[n - 1]};
      }
    }
  }

  lemma {:induction false} SubsetIsSmaller<T>(small: set<T>, large: set<T>)
    requires small <= large
    ensures |small| <= |large|
  {
    if small != {} {
      var x :| x in small;
      SubsetIsSmaller(small - {x}, large - {x});
    }
  }

  /** No lease ever causes a second outbound request, so a command is fetched at most once per
      attempt the server counted. */
  lemma FetchesWithinAttempts(w: World, timed: bool, id: CommandId)
    requires Reachable(w, timed) && id in w.server.table
    ensures forall i, j | 0 <= i < j < |w.fetches| :: w.fetches[i] != w.fetches[j]
    ensures FetchesFor(w.server.issued, w.fetches, id, |w.fetches|) <= w.server.table[id].attempt
  {
    ReachableInv(w, timed);
    var leases := FetchedLeases(w.server.issued, w.fetches, id, |w.fetches|);
    SubsetIsSmaller(leases, GrantsOf(w.server.issued, id));
    assert RowOk(w.server, id);
  }

  // ---------------------------------------------------------------- results

  /** A COMPLETED HTTP_GET_JSON row stores the result of the one request made under the lease
      that was accepted, reported directly or replayed from the journal. */
  lemma CompletedHttp(w: World, timed: bool, id: CommandId)
    requires Reachable(w, timed) && id in w.server.table
    requires w.server.table[id].status == COMPLETED && w.server.table[id].payload.HttpGetJsonPayload?
    ensures var row := w.server.table[id];
            && row.leaseId.Some? && row.leaseId.value in w.fetched && row.leaseId.value in w.fetches
            && row.result == Some(HttpResult(w.fetched[row.leaseId.value]))
  {
    ReachableInv(w, timed);
    assert RowOk(w.server, id);
    assert RowResultOk(w.server.issued, w.fetched, w.server.table[id]);
  }

  /** A COMPLETED DELAY row stores the requested duration, whichever attempt and whichever path
      produced it, unless its scheduled end is the instant 0. */
  lemma CompletedDelay(w: World, timed: bool, id: CommandId)
    requires Reachable(w, timed) && id in w.server.table
    requires w.server.table[id].status == COMPLETED && w.server.table[id].payload.DelayPayload?
    ensures var row := w.server.table[id];
            && row.startedAt.Some? && row.scheduledEndAt == Some(row.startedAt.value + row.payload.ms)
            && row.result.Some? && row.result.value.DelayResult? && row.result.value.ok
            && (row.scheduledEndAt != Some(0) ==> row.result.value.tookMs == row.payload.ms)
  {
    ReachableInv(w, timed);
    assert RowOk(w.server, id);
    assert RowResultOk(w.server.issued, w.fetched, w.server.table[id]);
  }

  /** A DELAY waits for the instant fixed when its lease was granted, however often the agent
      crashed and resumed in between. */
  lemma WaitKeepsTarget(w: World, timed: bool, agentId: AgentId)
    requires Reachable(w, timed) && agentId in w.agents && w.agents[agentId].pc.Waiting?
    ensures var pc := w.agents[agentId].pc;
            && pc.j.leaseId in w.server.issued
            && var c := w.server.issued[pc.j.leaseId].response;
            && c.commandId == pc.j.commandId && c.payload.DelayPayload? && pc.target == c.startedAt + c.payload.ms
  {
    ReachableInv(w, timed);
    assert AgentOk(w.server.issued, w.fetches, w.fetched, agentId, w.agents[agentId]);
  }

  lemma {:induction false} GrantsStay(w: World, steps: seq<Step>, timed: bool, i: nat, k: nat)
    requires Behavior(w, steps, timed) && i <= k <= |steps|
    ensures Extends(WorldAt(w, steps, i).server.issued, WorldAt(w, steps, k).server.issued)
    decreases k
  {
    if i < k {
      GrantsStay(w, steps, timed, i, k - 1);
      BehaviorStep(w, steps, timed, k - 1);
      if steps[k - 1].Serve? {
        ServeGrows(WorldAt(w, steps, k - 1), steps[k - 1].op);
      }
    }
  }

  predicate WaitsOn(w: World, agentId: AgentId, id: CommandId) {
    agentId in w.agents && w.agents[agentId].pc.Waiting? && w.agents[agentId].pc.j.commandId == id
  }

  /** A wait is for the end its own claim computed, from the payload the row still has. */
  lemma WaitTarget(w: World, agentId: AgentId, id: CommandId)
    requires SysInv(w) && WaitsOn(w, agentId, id)
    ensures var pc := w.agents[agentId].pc;
            && pc.j.leaseId in w.server.issued && id in w.server.table && w.server.table[id].payload.DelayPayload?
            && var c := w.server.issued[pc.j.leaseId].response;
            && c.commandId == id && pc.target == c.startedAt + w.server.table[id].payload.ms
  {
    assert AgentOk(w.server.issued, w.fetches, w.fetched, agentId, w.agents[agentId]);
    assert GrantOk(w.server, w.agents[agentId].pc.j.leaseId);
  }

  /** Two waits for one command, by whichever agents, before and after whatever crashes and
      restarts, are for the same instant exactly when the claims they stem from read the same
      `startedAt`; in particular if they are under the same lease. */
  lemma WaitsAgree(w: World, steps: seq<Step>, timed: bool, i: nat, k: nat, a: AgentId, b: AgentId, id: CommandId)
    requires Behavior(w, steps, timed) && i <= k <= |steps|
    requires WaitsOn(WorldAt(w, steps, i), a, id) && WaitsOn(WorldAt(w, steps, k), b, id)
    ensures var pc, pc', issued := WorldAt(w, steps, i).agents[a].pc, WorldAt(w, steps, k).agents[b].pc,
                                   WorldAt(w, steps, k).server.issued;
            && pc.j.leaseId in issued && pc'.j.leaseId in issued
            && (pc.target == pc'.target <==>
                  issued[pc.j.leaseId].response.startedAt == issued[pc'.j.leaseId].response.startedAt)
            && (pc.j.leaseId == pc'.j.leaseId ==> pc.target == pc'.target)
  {
    hide SysInv, Behavior;
    var before, after := WorldAt(w, steps, i), WorldAt(w, steps, k);
    BehaviorKeepsSysInv(w, steps, timed, i);
    BehaviorKeepsSysInv(w, steps, timed, k);
    WaitTarget(before, a, id);
    WaitTarget(after, b, id);
    GrantsStay(w, steps, timed, i, k);
    RowsFrozen(w, steps, timed, i, k, id);
  }

  /** While a journal quotes the lease its row is running under, journal and row agree, so only
      results of the current attempt can be accepted. */
  lemma JournalAgreesWithRow(w: World, timed: bool, agentId: AgentId)
    requires Reachable(w, timed) && agentId in w.agents && w.agents[agentId].disk.Some?
    ensures var j := w.agents[agentId].disk.value;
            Live(w.server, j.leaseId) ==>
              && j.commandId in w.server.table
              && var row := w.server.table[j.commandId];
              && row.status == RUNNING && row.leaseId == Some(j.leaseId) && row.agentId == Some(agentId)
              && row.payload.Type() == j.commandType
              && row.startedAt == Some(j.startedAt) && row.scheduledEndAt == j.scheduledEndAt
  {
    ReachableInv(w, timed);
    assert AgentOk(w.server.issued, w.fetches, w.fetched, agentId, w.agents[agentId]);
    var j := w.agents[agentId].disk.value;
    if Live(w.server, j.leaseId) {
      assert RowOk(w.server, j.commandId);
    }
  }

  function CompleteOf(r: Report): Op {
    Complete(r.commandId, r.agentId, r.leaseId, r.result)
  }

  ghost predicate AcceptedAt(w: World, steps: seq<Step>, i: nat, r: Report)
    requires i < |steps|
  {
    steps[i] == Serve(CompleteOf(r)) && Accepted(WorldAt(w, steps, i).server, CompleteOf(r))
  }

  /** The server acknowledges exactly the completion reports it has accepted. */
  lemma {:induction false} AcksAreAcceptances(w: World, steps: seq<Step>, timed: bool, k: nat, r: Report)
    requires Behavior(w, steps, timed) && k <= |steps|
    ensures r in WorldAt(w, steps, k).acks <==> exists i | 0 <= i < k :: AcceptedAt(w, steps, i, r)
    decreases k
  {
    if k > 0 {
      AcksAreAcceptances(w, steps, timed, k - 1, r);
      AckStep(WorldAt(w, steps, k - 1), steps[k - 1], r);
      if r in WorldAt(w, steps, k).acks && r !in WorldAt(w, steps, k - 1).acks {
        assert AcceptedAt(w, steps, k - 1, r);
      }
    }
  }

  lemma AckStep(w: World, step: Step, r: Report)
    ensures r in After(w, step).acks <==>
            r in w.acks || (step == Serve(CompleteOf(r)) && Accepted(w.server, CompleteOf(r)))
  {}

  predicate AckArrives(w: World, agentId: AgentId) {
    && agentId in w.agents && w.agents[agentId].pc.AwaitingAck?
    && var pc := w.agents[agentId].pc;
    && Report(pc.j.commandId, agentId, pc.j.leaseId, pc.result) in w.acks
  }

  /** If complete returns true, the server holds this agent's own result for good. */
  lemma TrueMeansStored(w: World, timed: bool, agentId: AgentId)
    requires Reachable(w, timed) && AckArrives(w, agentId)
    ensures var pc := w.agents[agentId].pc;
            && pc.j.commandId in w.server.table
            && var row := w.server.table[pc.j.commandId];
            && row.status == COMPLETED && row.result == Some(pc.result)
            && row.agentId == Some(agentId) && row.leaseId == Some(pc.j.leaseId)
  {
    ReachableInv(w, timed);
    var pc := w.agents[agentId].pc;
    assert AckOk(w.server.table, Report(pc.j.commandId, agentId, pc.j.leaseId, pc.result));
  }

  // ---------------------------------------------------------------- who may be working

  predicate WorksFor(a: Agent, id: CommandId) {
    Executing(a.pc) && a.pc.j.commandId == id
  }

  lemma WorkerHasLease(issued: Issued, fetches: seq<LeaseId>, fetched: Results, agentId: AgentId, a: Agent)
    requires AgentOk(issued, fetches, fetched, agentId, a) && Executing(a.pc)
    ensures a.pc.j.leaseId in issued && issued[a.pc.j.leaseId].agentId == agentId
    ensures issued[a.pc.j.leaseId].response.commandId == a.pc.j.commandId
  {}

  /** Of all agents working on one command at most one does so under a live lease. */
  lemma AtMostOneLiveWorker(w: World, timed: bool, a: AgentId, b: AgentId, id: CommandId)
    requires Reachable(w, timed) && a in w.agents && b in w.agents
    requires WorksFor(w.agents[a], id) && WorksFor(w.agents[b], id)
    requires Live(w.server, w.agents[a].pc.j.leaseId) && Live(w.server, w.agents[b].pc.j.leaseId)
    ensures a == b
  {
    ReachableInv(w, timed);
    WorkerHasLease(w.server.issued, w.fetches, w.fetched, a, w.agents[a]);
    WorkerHasLease(w.server.issued, w.fetches, w.fetched, b, w.agents[b]);
    OneLiveLeasePerCommand(w.server, w.agents[a].pc.j.leaseId, w.agents[b].pc.j.leaseId);
  }
}
