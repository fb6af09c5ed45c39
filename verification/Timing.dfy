/**
 DELAY and time, under one shared clock that does not run backwards and timers that never fire
 early: nothing is reported before its scheduled end, at whatever point the agent crashes,
 provided the delay fits a Node.js timer.
 */
module Timing {
  import opened Commands
  import opened Server
  import opened AgentMachine
  import opened QueueSystem
  import opened SystemInv

  /** The requested delay is one a timer can wait for. */
  predicate Short(g: Grant) {
    g.response.payload.DelayPayload? && g.response.payload.ms <= MAX_TIMER_MS
  }

  predicate EndPassed(g: Grant, now: int) {
    Short(g) ==> g.response.startedAt + g.response.payload.ms <= now
  }

  predicate AgentOnTime(issued: Issued, a: Agent, now: int) {
    && (a.disk.Some? && a.disk.value.stage == RESULT_SAVED && a.disk.value.leaseId in issued ==>
          EndPassed(issued[a.disk.value.leaseId], now))
    && (a.pc.Waited? && a.pc.j.leaseId in issued ==> EndPassed(issued[a.pc.j.leaseId], now))
    && (a.pc.Waiting? && a.pc.j.leaseId in issued && Short(issued[a.pc.j.leaseId]) ==> a.pc.target == a.pc.due)
  }

  ghost predicate AgentsOnTime(w: World) {
    forall id | id in w.agents :: AgentOnTime(w.server.issued, w.agents[id], w.now)
  }

  ghost predicate ReportsOnTime(w: World) {
    forall r | r in w.reports && r.leaseId in w.server.issued :: EndPassed(w.server.issued[r.leaseId], w.now)
  }

  predicate RowOnTime(issued: Issued, row: Row, now: int) {
    row.status == COMPLETED && row.leaseId.Some? && row.leaseId.value in issued ==>
      EndPassed(issued[row.leaseId.value], now)
  }

  ghost predicate RowsOnTime(w: World) {
    forall id | id in w.server.table :: RowOnTime(w.server.issued, w.server.table[id], w.now)
  }

  ghost predicate GrantsOnTime(w: World) {
    forall l | l in w.server.issued :: w.server.issued[l].response.startedAt <= w.now
  }

  ghost predicate TimeInv(w: World) {
    AgentsOnTime(w) && ReportsOnTime(w) && RowsOnTime(w) && GrantsOnTime(w)
  }

  lemma AgentStepOnTime(issued: Issued, fetches: seq<LeaseId>, fetched: Results, id: AgentId, a: Agent, e: Event,
                        now: int)
    requires AgentOk(issued, fetches, fetched, id, a) && AgentOnTime(issued, a, now)
    requires forall l | l in issued :: issued[l].response.startedAt <= now
    requires AgentMachine.Enabled(a, e) && (e.TimerFires? ==> a.pc.due <= now)
    ensures AgentOnTime(issued, AgentMachine.Next(a, e, now), now)
  {}

  lemma ActOnTime(w: World, id: AgentId, e: Event)
    requires SysInv(w) && TimeInv(w) && Allowed(w, Act(id, e), true)
    ensures TimeInv(AfterAct(w, id, e))
  {
    var w' := AfterAct(w, id, e);
    assert AgentOk(w.server.issued, w.fetches, w.fetched, id, w.agents[id]);
    assert AgentOnTime(w.server.issued, w.agents[id], w.now);
    forall other | other in w'.agents ensures AgentOnTime(w'.server.issued, w'.agents[other], w'.now) {
      if other == id {
        AgentStepOnTime(w.server.issued, w.fetches, w.fetched, id, w.agents[id], e, w.now);
      } else {
        assert AgentOnTime(w.server.issued, w.agents[other], w.now);
      }
    }
    assert ReportsOnTime(w');
    assert RowsOnTime(w') by {
      forall row | row in w'.server.table ensures RowOnTime(w'.server.issued, w'.server.table[row], w'.now) {
        assert RowOnTime(w.server.issued, w.server.table[row], w.now);
      }
    }
  }

  lemma ServeRowsOnTime(w: World, op: Op, id: CommandId)
    requires SysInv(w) && TimeInv(w) && CanStep(w, Serve(op)) && id in Apply(w.server, op).table
    ensures RowOnTime(Apply(w.server, op).issued, Apply(w.server, op).table[id], w.now)
  {}

  lemma ServeAgentOnTime(w: World, op: Op, id: AgentId)
    requires SysInv(w) && TimeInv(w) && CanStep(w, Serve(op)) && id in w.agents
    ensures AgentOnTime(Apply(w.server, op).issued, w.agents[id], w.now)
  {
    ServeGrows(w, op);
    assert AgentOk(w.server.issued, w.fetches, w.fetched, id, w.agents[id]);
    assert AgentOnTime(w.server.issued, w.agents[id], w.now);
  }

  lemma ServeOnTime(w: World, op: Op)
    requires SysInv(w) && TimeInv(w) && CanStep(w, Serve(op))
    ensures TimeInv(AfterServe(w, op))
  {
    var w' := AfterServe(w, op);
    ServeGrows(w, op);
    forall id | id in w'.agents ensures AgentOnTime(w'.server.issued, w'.agents[id], w'.now) {
      ServeAgentOnTime(w, op, id);
    }
    forall id | id in w'.server.table ensures RowOnTime(w'.server.issued, w'.server.table[id], w'.now) {
      ServeRowsOnTime(w, op, id);
    }
    forall r | r in w'.reports && r.leaseId in w'.server.issued ensures EndPassed(w'.server.issued[r.leaseId], w'.now) {
      assert ReportOk(w.server.issued, w.fetched, r);
    }
  }

  lemma TickOnTime(w: World, now: int)
    requires TimeInv(w) && w.now <= now
    ensures TimeInv(w.(now := now))
  {}

  lemma StepKeepsTime(w: World, step: Step)
    requires SysInv(w) && TimeInv(w) && Allowed(w, step, true)
    ensures TimeInv(After(w, step))
  {
    match step
    case Serve(op) => ServeOnTime(w, op);
    case Act(id, e) => ActOnTime(w, id, e);
    case Tick(now) => TickOnTime(w, now);
  }

  lemma {:induction false} BehaviorKeepsTime(w: World, steps: seq<Step>, k: nat)
    requires k <= |steps| && Behavior(w, steps, true)
    ensures TimeInv(WorldAt(w, steps, k))
  {
    if k > 0 {
      BehaviorKeepsTime(w, steps, k - 1);
      BehaviorKeepsSysInv(w, steps, true, k - 1);
      assert Allowed(WorldAt(w, steps, k - 1), steps[k - 1], true);
      StepKeepsTime(WorldAt(w, steps, k - 1), steps[k - 1]);
    }
  }

  lemma ReachableTimeInv(w: World)
    requires Reachable(w, true)
    ensures TimeInv(w)
  {
    var start, steps :| EndsIn(start, steps, true, w);
    BehaviorKeepsTime(start, steps, |steps|);
  }
}
