/**
 When two agents can execute one command at the same time: exactly when a restart resets a row
 whose lease is still in use.
 */
module Overlap {
  import opened Commands
  import opened Server
  import opened ServerRuns
  import opened AgentMachine
  import opened QueueSystem
  import opened SystemInv
  import opened Guarantees
  import opened Continuations
  import opened Scenarios

  ghost predicate BothExecute(w: World, a: AgentId, b: AgentId, id: CommandId) {
    a != b && a in w.agents && b in w.agents && WorksFor(w.agents[a], id) && WorksFor(w.agents[b], id)
  }

  /** When two agents execute one command, they hold different leases and at most one of the two
      can still report. */
  lemma OverlapIsFenced(w: World, timed: bool, a: AgentId, b: AgentId, id: CommandId)
    requires Reachable(w, timed) && BothExecute(w, a, b, id)
    ensures w.agents[a].pc.j.leaseId != w.agents[b].pc.j.leaseId
    ensures !(Live(w.server, w.agents[a].pc.j.leaseId) && Live(w.server, w.agents[b].pc.j.leaseId))
  {
    ReachableInv(w, timed);
    WorkerHasLease(w.server.issued, w.fetches, w.fetched, a, w.agents[a]);
    WorkerHasLease(w.server.issued, w.fetches, w.fetched, b, w.agents[b]);
    if Live(w.server, w.agents[a].pc.j.leaseId) && Live(w.server, w.agents[b].pc.j.leaseId) {
      AtMostOneLiveWorker(w, timed, a, b, id);
    }
  }

  // ---------------------------------------------------------------- leases in use

  /** The process executes under the lease, is about to, or will if it is restarted: recovery
      resumes a DELAY journal whose result is not saved. */
  predicate MayExecute(a: Agent, l: LeaseId) {
    || (a.pc.Claimed? && a.pc.claim.leaseId == l)
    || (Executing(a.pc) && a.pc.j.leaseId == l)
    || (a.disk.Some? && a.disk.value.leaseId == l
        && a.disk.value.commandType == DELAY && a.disk.value.stage != RESULT_SAVED)
  }

  /** The agent may execute under the lease, or is waiting for the response that grants it. */
  predicate InUse(w: World, agentId: AgentId, l: LeaseId) {
    && agentId in w.agents && l in w.server.issued
    && (MayExecute(w.agents[agentId], l)
        || (w.agents[agentId].pc.Claiming? && Delivery(agentId, w.server.issued[l].response) in w.responses))
  }

  /** The row of the lease's command still carries it, whatever its status. */
  predicate Carried(s: State, l: LeaseId) {
    && l in s.issued && s.issued[l].response.commandId in s.table
    && s.table[s.issued[l].response.commandId].leaseId == Some(l)
  }

  /** A restart that clears this lease from its row while this agent has it in use. */
  predicate TakesFrom(w: World, step: Step, agentId: AgentId, l: LeaseId) {
    && step.Serve? && InUse(w, agentId, l) && Carried(w.server, l)
    && Resets(w.server, step.op, w.server.issued[l].response.commandId)
  }

  ghost predicate TakesAway(w: World, step: Step) {
    exists agentId, l :: TakesFrom(w, step, agentId, l)
  }

  // ---------------------------------------------------------------- no lease taken away, no overlap

  ghost predicate Kept(w: World) {
    forall agentId, l | InUse(w, agentId, l) :: Carried(w.server, l)
  }

  lemma CarriedAfter(s: State, op: Op, l: LeaseId)
    requires Server.Inv(s) && Legal(s, op) && Carried(s, l)
    requires !Resets(s, op, s.issued[l].response.commandId)
    ensures Carried(Apply(s, op), l)
  {
    assert op.Claim? && op.pick.Some? ==> RowOk(s, op.pick.value);
  }

  lemma CarriedOnceGranted(s: State, op: Op, l: LeaseId)
    requires Server.Inv(s) && Legal(s, op) && l !in s.issued && l in Apply(s, op).issued
    ensures Carried(Apply(s, op), l)
  {
    assert RowOk(s, op.pick.value);
  }

  lemma ServeKeeps(w: World, op: Op, agentId: AgentId, l: LeaseId)
    requires SysInv(w) && CanStep(w, Serve(op)) && InUse(AfterServe(w, op), agentId, l)
    requires InUse(w, agentId, l) ==> Carried(w.server, l) && !TakesFrom(w, Serve(op), agentId, l)
    ensures Carried(Apply(w.server, op), l)
  {
    hide MayExecute;
    ServeGrows(w, op);
    if l in w.server.issued {
      assert GrantOk(w.server, l);
      assert InUse(w, agentId, l);
      CarriedAfter(w.server, op, l);
    } else {
      CarriedOnceGranted(w.server, op, l);
    }
  }

  lemma MayExecuteAfter(a: Agent, e: Event, now: int, l: LeaseId)
    requires AgentMachine.Enabled(a, e) && MayExecute(AgentMachine.Next(a, e, now), l)
    ensures MayExecute(a, l) || (e.ReceiveClaim? && e.claim.leaseId == l)
  {}

  lemma AsksBeforeClaiming(a: Agent, e: Event, now: int)
    requires AgentMachine.Enabled(a, e)
    ensures AgentMachine.Next(a, e, now).pc.Claiming? ==> e.SendClaim?
  {}

  /** A process takes up only a lease that it has in use already. */
  lemma ActUsesNothingNew(w: World, id: AgentId, e: Event, agentId: AgentId, l: LeaseId)
    requires SysInv(w) && CanStep(w, Act(id, e)) && InUse(AfterAct(w, id, e), agentId, l)
    ensures InUse(w, agentId, l)
  {
    AsksBeforeClaiming(w.agents[id], e, w.now);
    hide MayExecute, AgentMachine.Next, AgentMachine.Enabled;
    if id == agentId && MayExecute(AgentMachine.Next(w.agents[id], e, w.now), l) {
      MayExecuteAfter(w.agents[id], e, w.now, l);
      if e.ReceiveClaim? {
        assert ClaimOk(w.server.issued, w.fetches, id, e.claim);
      }
    }
  }

  lemma StepKeepsKept(w: World, step: Step)
    requires SysInv(w) && Kept(w) && CanStep(w, step) && !TakesAway(w, step)
    ensures Kept(After(w, step))
  {
    forall agentId, l | InUse(After(w, step), agentId, l) ensures Carried(After(w, step).server, l) {
      match step
      case Serve(op) =>
        assert !TakesFrom(w, step, agentId, l);
        ServeKeeps(w, op, agentId, l);
      case Act(id, e) => ActUsesNothingNew(w, id, e, agentId, l);
      case Tick(_) => assert InUse(w, agentId, l);
    }
  }

  /** A run in which no restart takes a lease away from its user. */
  ghost predicate Untaken(w: World, steps: seq<Step>, timed: bool) {
    && Path(w, steps, timed)
    && forall k {:trigger TakesAway(WorldAt(w, steps, k), steps[k])} | 0 <= k < |steps| ::
         !TakesAway(WorldAt(w, steps, k), steps[k])
  }

  lemma {:induction false} UntakenKeeps(w: World, steps: seq<Step>, timed: bool, k: nat)
    requires SysInv(w) && Kept(w) && Untaken(w, steps, timed) && k <= |steps|
    ensures SysInv(WorldAt(w, steps, k)) && Kept(WorldAt(w, steps, k))
    decreases k
  {
    if k > 0 {
      UntakenKeeps(w, steps, timed, k - 1);
      var before := WorldAt(w, steps, k - 1);
      assert Allowed(before, steps[k - 1], timed) && !TakesAway(before, steps[k - 1]);
      StepKeepsSysInv(before, steps[k - 1]);
      StepKeepsKept(before, steps[k - 1]);
    }
  }

  lemma KeptMeansAlone(w: World, a: AgentId, b: AgentId, id: CommandId)
    requires SysInv(w) && Kept(w)
    ensures !BothExecute(w, a, b, id)
  {
    if BothExecute(w, a, b, id) {
      assert AgentOk(w.server.issued, w.fetches, w.fetched, a, w.agents[a]);
      assert AgentOk(w.server.issued, w.fetches, w.fetched, b, w.agents[b]);
      WorkerHasLease(w.server.issued, w.fetches, w.fetched, a, w.agents[a]);
      WorkerHasLease(w.server.issued, w.fetches, w.fetched, b, w.agents[b]);
      assert InUse(w, a, w.agents[a].pc.j.leaseId) && InUse(w, b, w.agents[b].pc.j.leaseId);
      assert false;
    }
  }

  lemma InitKeeps(w: World)
    requires Init(w)
    ensures SysInv(w) && Kept(w)
  {}

  /** In a run in which no restart resets a row whose lease is in use, at most one agent executes a
      command at any time. */
  lemma OneAtATime(w: World, steps: seq<Step>, timed: bool, k: nat, a: AgentId, b: AgentId, id: CommandId)
    requires Init(w) && Untaken(w, steps, timed) && k <= |steps|
    ensures !BothExecute(WorldAt(w, steps, k), a, b, id)
  {
    InitKeeps(w);
    UntakenKeeps(w, steps, timed, k);
    KeptMeansAlone(WorldAt(w, steps, k), a, b, id);
  }

  // ---------------------------------------------------------------- coming to execute

  /** A DELAY journal whose result is not saved is executed after a crash. */
  lemma Resumes(origin: World, w: World, id: AgentId, timed: bool) returns (w': World)
    requires Leads(origin, w, timed) && id in w.agents && w.agents[id].disk.Some?
    requires var j := w.agents[id].disk.value;
             j.commandType == DELAY && j.stage != RESULT_SAVED && j.scheduledEndAt.Some?
    ensures Leads(origin, w', timed) && OnlyMoved(w, w', id)
    ensures WorksFor(w'.agents[id], w.agents[id].disk.value.commandId)
  {
    hide Leads;
    w' := Reboots(origin, w, id, timed);
    w' := Moves(origin, w', id, LoadJournal, timed);
  }

  lemma UsedForItsCommand(issued: Issued, fetches: seq<LeaseId>, fetched: Results, id: AgentId, a: Agent,
                          l: LeaseId)
    requires AgentOk(issued, fetches, fetched, id, a) && l in issued
    ensures var c := issued[l].response;
            && (Executing(a.pc) && a.pc.j.leaseId == l ==> a.pc.j.commandId == c.commandId)
            && (a.pc.Claimed? && a.pc.claim.leaseId == l ==> a.pc.claim.commandId == c.commandId)
            && (a.disk.Some? && a.disk.value.leaseId == l ==>
                  && a.disk.value.commandId == c.commandId
                  && (a.disk.value.commandType == DELAY ==> a.disk.value.scheduledEndAt.Some?))
  {}

  /** Whoever has a lease in use can come to execute under it. */
  lemma UserExecutes(origin: World, w: World, id: AgentId, l: LeaseId, timed: bool) returns (w': World)
    requires Leads(origin, w, timed) && InUse(w, id, l)
    ensures Leads(origin, w', timed) && OnlyMoved(w, w', id)
    ensures WorksFor(w'.agents[id], w.server.issued[l].response.commandId)
  {
    UsedForItsCommand(w.server.issued, w.fetches, w.fetched, id, w.agents[id], l);
    hide Leads, SysInv;
    w' := w;
    var a := w.agents[id];
    if Executing(a.pc) && a.pc.j.leaseId == l {
    } else if a.pc.Claimed? && a.pc.claim.leaseId == l {
      w' := SavesClaim(origin, w', id, timed);
    } else if MayExecute(a, l) {
      w' := Resumes(origin, w', id, timed);
    } else {
      w' := TakesUp(origin, w', id, w.server.issued[l].response, timed);
    }
  }

  // ---------------------------------------------------------------- a lease taken away, an overlap

  /** After a restart has taken a lease away from its user, quiet steps of the server and of these
      two agents lead to both executing the command, for any second agent. */
  lemma OverlapFollows(w: World, step: Step, timed: bool, a: AgentId, l: LeaseId, b: AgentId) returns (w': World)
    requires SysInv(w) && Allowed(w, step, timed) && TakesFrom(w, step, a, l) && b in w.agents && b != a
    ensures Leads(After(w, step), w', timed)
    ensures BothExecute(w', a, b, w.server.issued[l].response.commandId)
  {
    var origin, id := After(w, step), w.server.issued[l].response.commandId;
    StepKeepsSysInv(w, step);
    LeadsNowhere(origin, timed);
    hide Leads, SysInv;
    w' := UserExecutes(origin, origin, a, l, timed);
    w' := Asks(origin, w', b, timed);
    var c;
    w', c := Grants(origin, w', id, b, timed);
    w' := TakesUp(origin, w', b, c, timed);
  }

  // ---------------------------------------------------------------- exactly then

  /** A run in which no restart took a lease away from its user leads here. */
  ghost predicate Undisturbed(w: World, timed: bool) {
    exists start, steps :: Init(start) && Untaken(start, steps, timed) && WorldAt(start, steps, |steps|) == w
  }

  ghost predicate Overlaps(w: World, steps: seq<Step>, timed: bool) {
    Untaken(w, steps, timed) && exists a, b, id :: BothExecute(WorldAt(w, steps, |steps|), a, b, id)
  }

  lemma QuietTakesNothing(w: World, step: Step)
    requires Quiet(step)
    ensures !TakesAway(w, step)
  {}

  lemma LeadsToOverlap(w: World, w': World, timed: bool, a: AgentId, b: AgentId, id: CommandId)
    requires Leads(w, w', timed) && BothExecute(w', a, b, id)
    ensures exists steps :: Overlaps(w, steps, timed)
  {
    var steps :| QuietPath(w, steps, timed, w');
    forall k | 0 <= k < |steps| ensures !TakesAway(WorldAt(w, steps, k), steps[k]) {
      QuietTakesNothing(WorldAt(w, steps, k), steps[k]);
    }
    assert Overlaps(w, steps, timed);
  }

  /** README.md:35 fails exactly because of restarts that reset a row whose lease is in use: as
      long as none has happened, a step is such a restart if and only if some continuation without
      another one has two agents executing one command. */
  lemma OverlapIff(w: World, step: Step, timed: bool)
    requires Undisturbed(w, timed) && Allowed(w, step, timed) && |w.agents| >= 2
    ensures TakesAway(w, step) <==> exists steps :: Overlaps(After(w, step), steps, timed)
  {
    var start, before :| Init(start) && Untaken(start, before, timed) && WorldAt(start, before, |before|) == w;
    InitKeeps(start);
    UntakenKeeps(start, before, timed, |before|);
    if TakesAway(w, step) {
      var a, l :| TakesFrom(w, step, a, l);
      var b := AnotherAgent(w, a);
      var w' := OverlapFollows(w, step, timed, a, l, b);
      LeadsToOverlap(After(w, step), w', timed, a, b, w.server.issued[l].response.commandId);
    } else {
      StepKeepsSysInv(w, step);
      StepKeepsKept(w, step);
      forall steps ensures !Overlaps(After(w, step), steps, timed) {
        NeverOverlaps(After(w, step), steps, timed);
      }
    }
  }

  lemma NeverOverlaps(w: World, steps: seq<Step>, timed: bool)
    requires SysInv(w) && Kept(w)
    ensures !Overlaps(w, steps, timed)
  {
    if Untaken(w, steps, timed) {
      UntakenKeeps(w, steps, timed, |steps|);
      forall a, b, id ensures !BothExecute(WorldAt(w, steps, |steps|), a, b, id) {
        KeptMeansAlone(WorldAt(w, steps, |steps|), a, b, id);
      }
    }
  }

  lemma AnotherAgent(w: World, a: AgentId) returns (b: AgentId)
    requires |w.agents| >= 2
    ensures b in w.agents && b != a
  {
    if w.agents.Keys - {a} == {} {
      SubsetIsSmaller(w.agents.Keys, {a});
      assert false;
    }
    b :| b in w.agents.Keys - {a};
  }

  // ---------------------------------------------------------------- it happens

  /** An expired lease in use is all it takes: the next restart may be the one. */
  lemma OverdueOverlaps(w: World, timed: bool, a: AgentId, l: LeaseId, b: AgentId)
    requires Reachable(w, timed) && InUse(w, a, l) && b in w.agents && b != a
    requires Live(w.server, l) && Expired(w.server.table[w.server.issued[l].response.commandId], w.now)
    ensures exists w' :: Reachable(w', timed) && BothExecute(w', a, b, w.server.issued[l].response.commandId)
  {
    var step := Serve(Restart(w.now));
    ReachableInv(w, timed);
    StepReachable(w, step, timed);
    var w' := OverlapFollows(w, step, timed, a, l, b);
    LeadsReachable(After(w, step), w', timed);
  }

  /** Two agents can execute any delay at the same time, even with clocks and timers in order. */
  lemma OverlapHappens(ms: int, start: int)
    ensures exists w :: Reachable(w, true) && BothExecute(w, 0, 1, 0)
  {
    var w := AgentReady(ms, start, true);
    w := Ticked(w, start + LEASE_MS, true);
    OverdueOverlaps(w, true, 0, 0, 1);
  }
}
