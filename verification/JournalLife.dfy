/**
 The life of a journal: its stages, its end, and what may take its place.
 */
module JournalLife {
  import opened Commands
  import opened Server
  import opened AgentMachine
  import opened QueueSystem
  import opened SystemInv

  // ---------------------------------------------------------------- stages

  /** How one journal on disk may follow another: unchanged or one stage later for the same
      lease, or at CLAIMED for a lease just claimed that has not been fetched for. */
  predicate Follows(before: Option<Journal>, after: Journal, pc: Pc, e: Event, fetches: seq<LeaseId>) {
    if before.Some? && before.value.leaseId == after.leaseId then
      && (after == before.value || after.stage.Rank() == before.value.stage.Rank() + 1)
      && after.(stage := before.value.stage, httpSnapshot := before.value.httpSnapshot) == before.value
    else
      && e == SaveClaimed && pc.Claimed? && pc.claim.leaseId == after.leaseId
      && after.stage == CLAIMED && after.leaseId !in fetches
  }

  lemma StageStep(issued: Issued, fetches: seq<LeaseId>, fetched: Results, id: AgentId, a: Agent, e: Event, now: int)
    requires AgentOk(issued, fetches, fetched, id, a) && AgentMachine.Enabled(a, e)
    ensures AgentMachine.Next(a, e, now).disk.Some? ==>
              Follows(a.disk, AgentMachine.Next(a, e, now).disk.value, a.pc, e, fetches)
  {}

  /** In every run the journal of a lease starts at CLAIMED, moves one stage at a time, and
      changes nothing else but the snapshot. */
  lemma StageOnlyAdvances(w: World, timed: bool, agentId: AgentId, e: Event)
    requires Reachable(w, timed) && CanStep(w, Act(agentId, e))
    requires After(w, Act(agentId, e)).agents[agentId].disk.Some?
    ensures Follows(w.agents[agentId].disk, After(w, Act(agentId, e)).agents[agentId].disk.value,
                    w.agents[agentId].pc, e, w.fetches)
  {
    ReachableInv(w, timed);
    assert AgentOk(w.server.issued, w.fetches, w.fetched, agentId, w.agents[agentId]);
    StageStep(w.server.issued, w.fetches, w.fetched, agentId, w.agents[agentId], e, w.now);
  }

  /** On disk an HTTP_GET_JSON journal is at RESULT_SAVED exactly when it has a snapshot, and a
      DELAY journal never has one, so recovery reports a result of the command's own type. */
  lemma SavedResultFitsType(w: World, timed: bool, agentId: AgentId, now: int)
    requires Reachable(w, timed) && agentId in w.agents && w.agents[agentId].disk.Some?
    ensures var j := w.agents[agentId].disk.value;
            && (j.commandType == HTTP_GET_JSON ==> (j.httpSnapshot.Some? <==> j.stage == RESULT_SAVED))
            && (j.commandType == DELAY ==> j.httpSnapshot.None? && j.scheduledEndAt.Some?)
            && (j.stage == RESULT_SAVED ==> (SavedResult(j, now).HttpResult? <==> j.commandType == HTTP_GET_JSON))
  {
    ReachableInv(w, timed);
    assert AgentOk(w.server.issued, w.fetches, w.fetched, agentId, w.agents[agentId]);
  }

  // ---------------------------------------------------------------- spent leases

  /** The agent neither works under the lease, nor has a journal for it, nor can be handed it. */
  ghost predicate Spent(w: World, agentId: AgentId, l: LeaseId) {
    && l in w.server.issued && agentId in w.agents && !Holds(w.agents[agentId], l)
    && forall d | d in w.responses :: d.claim.leaseId != l
  }

  /** No response under way is for a lease the agent holds. */
  lemma HeldIsNotDelivered(w: World, agentId: AgentId, l: LeaseId)
    requires SysInv(w) && agentId in w.agents && Holds(w.agents[agentId], l)
    ensures l in w.server.issued && forall d | d in w.responses :: d.claim.leaseId != l
  {
    assert AgentOk(w.server.issued, w.fetches, w.fetched, agentId, w.agents[agentId]);
    HeldIsIssued(w.server.issued, w.fetches, w.fetched, agentId, w.agents[agentId], l);
    forall d | d in w.responses ensures d.claim.leaseId != l {
      assert ClaimOk(w.server.issued, w.fetches, d.agentId, d.claim);
    }
  }

  lemma SpentOnceDeleted(w: World, agentId: AgentId, l: LeaseId)
    requires agentId in w.agents && w.agents[agentId].pc.Cleaning?
    requires l in w.server.issued && forall d | d in w.responses :: d.claim.leaseId != l
    ensures Spent(AfterAct(w, agentId, DeleteJournal), agentId, l)
  {}

  /** Deleting the journal of a lease spends it. */
  lemma DeleteSpends(w: World, timed: bool, agentId: AgentId)
    requires Reachable(w, timed) && agentId in w.agents
    requires w.agents[agentId].pc.Cleaning? && w.agents[agentId].disk.Some?
    ensures Spent(AfterAct(w, agentId, DeleteJournal), agentId, w.agents[agentId].disk.value.leaseId)
  {
    ReachableInv(w, timed);
    HeldIsNotDelivered(w, agentId, w.agents[agentId].disk.value.leaseId);
    SpentOnceDeleted(w, agentId, w.agents[agentId].disk.value.leaseId);
  }

  lemma SpentAfterServe(w: World, op: Op, agentId: AgentId, l: LeaseId)
    requires CanStep(w, Serve(op)) && Spent(w, agentId, l)
    ensures Spent(AfterServe(w, op), agentId, l)
  {}

  lemma SpentAfterAct(w: World, id: AgentId, e: Event, agentId: AgentId, l: LeaseId)
    requires CanStep(w, Act(id, e)) && Spent(w, agentId, l)
    ensures Spent(AfterAct(w, id, e), agentId, l)
  {
    if id == agentId && Holds(AgentMachine.Next(w.agents[id], e, w.now), l) {
      HoldsAfter(w.agents[id], e, w.now, l);
    }
  }

  lemma SpentStays(w: World, step: Step, agentId: AgentId, l: LeaseId)
    requires CanStep(w, step) && Spent(w, agentId, l)
    ensures Spent(After(w, step), agentId, l)
  {
    match step
    case Serve(op) => SpentAfterServe(w, op, agentId, l);
    case Act(id, e) => SpentAfterAct(w, id, e, agentId, l);
    case Tick(_) =>
  }

  /** A deleted journal never comes back: once its lease is spent, no later state of the run has
      the agent working under it or a journal for it on disk. */
  lemma {:induction false} SpentForever(w: World, steps: seq<Step>, timed: bool, i: nat, k: nat,
                                        agentId: AgentId, l: LeaseId)
    requires Behavior(w, steps, timed) && i <= k <= |steps| && Spent(WorldAt(w, steps, i), agentId, l)
    ensures Spent(WorldAt(w, steps, k), agentId, l)
    decreases k
  {
    if i < k {
      SpentForever(w, steps, timed, i, k - 1, agentId, l);
      BehaviorStep(w, steps, timed, k - 1);
      SpentStays(WorldAt(w, steps, k - 1), steps[k - 1], agentId, l);
    }
  }

  // ---------------------------------------------------------------- stages over a run

  /** The journal of the lease is on disk, at this stage or a later one. */
  predicate AtLeast(w: World, agentId: AgentId, l: LeaseId, stage: Stage) {
    && agentId in w.agents && w.agents[agentId].disk.Some?
    && var j := w.agents[agentId].disk.value; j.leaseId == l && stage.Rank() <= j.stage.Rank()
  }

  /** A journal stays on disk, at its stage or a later one, or its lease is no longer held at all. */
  lemma LeavesDisk(issued: Issued, fetches: seq<LeaseId>, fetched: Results, id: AgentId, a: Agent, e: Event, now: int)
    requires AgentOk(issued, fetches, fetched, id, a) && AgentMachine.Enabled(a, e) && a.disk.Some?
    requires e.ReceiveClaim? ==> e.claim.leaseId != a.disk.value.leaseId
    ensures var before, a' := a.disk.value, AgentMachine.Next(a, e, now);
            || !Holds(a', before.leaseId)
            || (a'.disk.Some? && a'.disk.value.leaseId == before.leaseId
                && before.stage.Rank() <= a'.disk.value.stage.Rank())
  {
    StageStep(issued, fetches, fetched, id, a, e, now);
  }

  /** A journal that leaves the disk, deleted or overwritten, spends its lease. */
  lemma LeavesDiskSpent(w: World, agentId: AgentId, e: Event, l: LeaseId, stage: Stage)
    requires SysInv(w) && CanStep(w, Act(agentId, e)) && AtLeast(w, agentId, l, stage)
    ensures AtLeast(AfterAct(w, agentId, e), agentId, l, stage) || Spent(AfterAct(w, agentId, e), agentId, l)
  {
    assert AgentOk(w.server.issued, w.fetches, w.fetched, agentId, w.agents[agentId]);
    HeldIsNotDelivered(w, agentId, l);
    LeavesDisk(w.server.issued, w.fetches, w.fetched, agentId, w.agents[agentId], e, w.now);
    hide SysInv, AgentMachine.Next, AgentMachine.Enabled, AgentOk;
  }

  lemma StageOrSpentStep(w: World, step: Step, agentId: AgentId, l: LeaseId, stage: Stage)
    requires SysInv(w) && CanStep(w, step) && (AtLeast(w, agentId, l, stage) || Spent(w, agentId, l))
    ensures AtLeast(After(w, step), agentId, l, stage) || Spent(After(w, step), agentId, l)
  {
    if Spent(w, agentId, l) {
      SpentStays(w, step, agentId, l);
    } else if step.Act? && step.agentId == agentId {
      LeavesDiskSpent(w, agentId, step.event, l, stage);
    }
  }

  lemma {:induction false} StageOrSpent(w: World, steps: seq<Step>, timed: bool, i: nat, k: nat,
                                        agentId: AgentId, l: LeaseId, stage: Stage)
    requires Behavior(w, steps, timed) && i <= k <= |steps| && AtLeast(WorldAt(w, steps, i), agentId, l, stage)
    ensures AtLeast(WorldAt(w, steps, k), agentId, l, stage) || Spent(WorldAt(w, steps, k), agentId, l)
    decreases k
  {
    if i < k {
      StageOrSpent(w, steps, timed, i, k - 1, agentId, l, stage);
      BehaviorStep(w, steps, timed, k - 1);
      StageOrSpentStep(WorldAt(w, steps, k - 1), steps[k - 1], agentId, l, stage);
    }
  }

  /** Over a whole run: a journal seen on disk twice has not gone back a stage in between, and one
      no longer on disk is gone for good. */
  lemma StageNeverFalls(w: World, steps: seq<Step>, timed: bool, i: nat, k: nat, agentId: AgentId)
    requires Behavior(w, steps, timed) && i <= k <= |steps|
    requires agentId in WorldAt(w, steps, i).agents && WorldAt(w, steps, i).agents[agentId].disk.Some?
    ensures agentId in WorldAt(w, steps, k).agents
    ensures var before := WorldAt(w, steps, i).agents[agentId].disk.value;
            var after := WorldAt(w, steps, k).agents[agentId].disk;
            if after.Some? && after.value.leaseId == before.leaseId
            then before.stage.Rank() <= after.value.stage.Rank()
            else Spent(WorldAt(w, steps, k), agentId, before.leaseId)
  {
    var j := WorldAt(w, steps, i).agents[agentId].disk.value;
    StageOrSpent(w, steps, timed, i, k, agentId, j.leaseId, j.stage);
  }

  // ---------------------------------------------------------------- saved results are sent

  /** The agent has sent a completion report under the journal's lease. */
  ghost predicate Sent(reports: set<Report>, agentId: AgentId, j: Journal) {
    exists r | r in reports :: r.agentId == agentId && r.leaseId == j.leaseId && r.commandId == j.commandId
  }

  /** A process waiting for the answer has sent its report, and so has one that is about to delete a
      journal whose result is saved. */
  ghost predicate SentOk(reports: set<Report>, agentId: AgentId, a: Agent) {
    && (a.pc.AwaitingAck? ==> Sent(reports, agentId, a.pc.j))
    && (a.pc.Cleaning? && a.disk.Some? && a.disk.value.stage == RESULT_SAVED ==> Sent(reports, agentId, a.disk.value))
  }

  lemma SentGrows(reports: set<Report>, more: set<Report>, agentId: AgentId, a: Agent)
    requires SentOk(reports, agentId, a) && reports <= more
    ensures SentOk(more, agentId, a)
  {}

  lemma SentStep(issued: Issued, fetches: seq<LeaseId>, fetched: Results, reports: set<Report>,
                 id: AgentId, a: Agent, e: Event, now: int)
    requires AgentOk(issued, fetches, fetched, id, a) && AgentMachine.Enabled(a, e) && SentOk(reports, id, a)
    requires e.SendComplete? ==> Report(a.pc.j.commandId, id, a.pc.j.leaseId, a.pc.result) in reports
    ensures SentOk(reports, id, AgentMachine.Next(a, e, now))
  {
    if e.SendComplete? {
      assert Sent(reports, id, a.pc.j);
    }
  }

  ghost predicate SentInv(w: World) {
    forall id | id in w.agents :: SentOk(w.reports, id, w.agents[id])
  }

  lemma StepKeepsSent(w: World, step: Step)
    requires SysInv(w) && SentInv(w) && CanStep(w, step)
    ensures SentInv(After(w, step))
  {
    var w' := After(w, step);
    forall id | id in w'.agents ensures SentOk(w'.reports, id, w'.agents[id]) {
      assert AgentOk(w.server.issued, w.fetches, w.fetched, id, w.agents[id]);
      SentGrows(w.reports, w'.reports, id, w.agents[id]);
      if step.Act? && step.agentId == id {
        SentStep(w.server.issued, w.fetches, w.fetched, w'.reports, id, w.agents[id], step.event, w.now);
      }
    }
  }

  lemma InitSent(w: World)
    requires Init(w)
    ensures SentInv(w)
  {}

  lemma {:induction false} BehaviorKeepsSent(w: World, steps: seq<Step>, timed: bool, k: nat)
    requires Behavior(w, steps, timed) && k <= |steps|
    ensures SentInv(WorldAt(w, steps, k))
    decreases k
  {
    InitSent(w);
    hide SentInv, SysInv, CanStep, After, KeepsTime;
    if k > 0 {
      BehaviorKeepsSent(w, steps, timed, k - 1);
      BehaviorStep(w, steps, timed, k - 1);
      StepKeepsSent(WorldAt(w, steps, k - 1), steps[k - 1]);
    }
  }

  /** A saved result is never dropped unsent: when a journal at RESULT_SAVED is deleted, a report
      under its lease has been sent, and it carried a result that lease allows. */
  lemma DeletedMeansSent(w: World, timed: bool, agentId: AgentId)
    requires Reachable(w, timed) && agentId in w.agents && w.agents[agentId].pc.Cleaning?
    requires w.agents[agentId].disk.Some? && w.agents[agentId].disk.value.stage == RESULT_SAVED
    ensures var j := w.agents[agentId].disk.value;
            exists r | r in w.reports ::
              && r.agentId == agentId && r.leaseId == j.leaseId && r.commandId == j.commandId
              && r.leaseId in w.server.issued && ResultOk(w.server.issued[r.leaseId], w.fetched, r.result)
  {
    var start, steps :| EndsIn(start, steps, timed, w);
    BehaviorKeepsSent(start, steps, timed, |steps|);
    ReachableInv(w, timed);
    assert SentOk(w.reports, agentId, w.agents[agentId]);
    var j := w.agents[agentId].disk.value;
    var r :| r in w.reports && r.agentId == agentId && r.leaseId == j.leaseId && r.commandId == j.commandId;
    assert ReportOk(w.server.issued, w.fetched, r);
  }

  // ---------------------------------------------------------------- nothing is sent before it is saved

  /** Whoever has reported under a lease has its journal at RESULT_SAVED, or is done with it. */
  ghost predicate Settled(w: World, r: Report) {
    AtLeast(w, r.agentId, r.leaseId, RESULT_SAVED) || Spent(w, r.agentId, r.leaseId)
  }

  ghost predicate ReportsSettled(w: World) {
    forall r | r in w.reports :: Settled(w, r)
  }

  lemma SendSettled(w: World, id: AgentId, e: Event, r: Report)
    requires SysInv(w) && CanStep(w, Act(id, e)) && r in AfterAct(w, id, e).reports && r !in w.reports
    ensures AtLeast(AfterAct(w, id, e), r.agentId, r.leaseId, RESULT_SAVED)
  {
    assert AgentOk(w.server.issued, w.fetches, w.fetched, id, w.agents[id]);
  }

  lemma StepKeepsSettled(w: World, step: Step)
    requires SysInv(w) && ReportsSettled(w) && CanStep(w, step)
    ensures ReportsSettled(After(w, step))
  {
    forall r | r in After(w, step).reports ensures Settled(After(w, step), r) {
      if r in w.reports {
        assert Settled(w, r);
        StageOrSpentStep(w, step, r.agentId, r.leaseId, RESULT_SAVED);
      } else {
        SendSettled(w, step.agentId, step.event, r);
      }
    }
  }

  lemma {:induction false} BehaviorKeepsSettled(w: World, steps: seq<Step>, timed: bool, k: nat)
    requires Behavior(w, steps, timed) && k <= |steps|
    ensures ReportsSettled(WorldAt(w, steps, k))
    decreases k
  {
    assert ReportsSettled(w);
    hide ReportsSettled, SysInv, CanStep, After, KeepsTime;
    if k > 0 {
      BehaviorKeepsSettled(w, steps, timed, k - 1);
      BehaviorStep(w, steps, timed, k - 1);
      StepKeepsSettled(WorldAt(w, steps, k - 1), steps[k - 1]);
    }
  }

  /** No report is sent under a lease before its result is on disk. */
  lemma SavedBeforeSent(w: World, timed: bool, agentId: AgentId, r: Report)
    requires Reachable(w, timed) && agentId in w.agents && w.agents[agentId].disk.Some?
    requires r in w.reports && r.leaseId == w.agents[agentId].disk.value.leaseId
    ensures r.agentId == agentId && w.agents[agentId].disk.value.stage == RESULT_SAVED
  {
    var start, steps :| EndsIn(start, steps, timed, w);
    BehaviorKeepsSettled(start, steps, timed, |steps|);
    ReachableInv(w, timed);
    assert Settled(w, r);
    assert ReportOk(w.server.issued, w.fetched, r);
    HeldIsIssued(w.server.issued, w.fetches, w.fetched, agentId, w.agents[agentId], r.leaseId);
  }

  // ---------------------------------------------------------------- one slot

  /** Losing the slot takes an I/O error that the code swallows: a failed load or a failed delete. */
  predicate SlotFault(step: Step, agentId: AgentId) {
    step == Act(agentId, LoadError) || step == Act(agentId, DeleteFails)
  }

  /** Between two commands the slot is empty. */
  predicate SlotOk(a: Agent) {
    a.pc.Idle? || a.pc.Claiming? || a.pc.Claimed? ==> a.disk.None?
  }

  lemma SlotAfterStep(w: World, step: Step, agentId: AgentId)
    requires CanStep(w, step) && agentId in w.agents && SlotOk(w.agents[agentId]) && !SlotFault(step, agentId)
    ensures agentId in After(w, step).agents && SlotOk(After(w, step).agents[agentId])
  {}

  lemma {:induction false} SlotStaysEmpty(w: World, steps: seq<Step>, timed: bool, agentId: AgentId, k: nat)
    requires Behavior(w, steps, timed) && k <= |steps| && agentId in w.agents
    requires forall i | 0 <= i < k :: !SlotFault(steps[i], agentId)
    ensures agentId in WorldAt(w, steps, k).agents && SlotOk(WorldAt(w, steps, k).agents[agentId])
    decreases k
  {
    if k > 0 {
      SlotStaysEmpty(w, steps, timed, agentId, k - 1);
      BehaviorStep(w, steps, timed, k - 1);
      SlotAfterStep(WorldAt(w, steps, k - 1), steps[k - 1], agentId);
    }
  }

  /** A new claim overwrites the journal of another lease only if, earlier in the run, loading or
      deleting that agent's journal failed. */
  lemma OverwriteNeedsFault(w: World, steps: seq<Step>, timed: bool, agentId: AgentId, k: nat)
    requires Behavior(w, steps, timed) && k < |steps| && agentId in w.agents
    requires agentId in WorldAt(w, steps, k).agents
    requires steps[k] == Act(agentId, SaveClaimed) && WorldAt(w, steps, k).agents[agentId].disk.Some?
    ensures exists i | 0 <= i < k :: SlotFault(steps[i], agentId)
  {
    assert Allowed(WorldAt(w, steps, k), steps[k], timed);
    if forall i | 0 <= i < k :: !SlotFault(steps[i], agentId) {
      SlotStaysEmpty(w, steps, timed, agentId, k);
      assert false;
    }
  }
}
