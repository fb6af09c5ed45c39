/**
 The inductive invariant of the whole system: what every journal, message, history entry and
 row owes to the lease it quotes.
 */
module SystemInv {
  import opened Commands
  import opened Server
  import opened AgentMachine
  import opened QueueSystem

  type Issued = map<LeaseId, Grant>
  type Results = map<LeaseId, HttpGetJsonResult>

  // ---------------------------------------------------------------- what a lease allows

  /** The result a holder of the lease may report. A DELAY result is the requested duration,
      except that a scheduled end at instant 0 makes the replayed value depend on the clock. A
      scheduled end that is no Date has no result. */
  predicate ResultOk(g: Grant, fetched: Results, result: CommandResult) {
    match g.response.payload
    case HttpGetJsonPayload(_) =>
      g.response.leaseId in fetched && result == HttpResult(fetched[g.response.leaseId])
    case DelayPayload(ms) =>
      && result.DelayResult? && result.ok && HasDate(g.response.startedAt + ms)
      && (g.response.startedAt + ms != 0 ==> result.tookMs == ms)
  }

  /** The journal quotes its lease correctly, and has a snapshot exactly when its HTTP result is saved. */
  predicate JournalOk(issued: Issued, fetched: Results, id: AgentId, j: Journal) {
    && j.leaseId in issued
    && var g := issued[j.leaseId];
    && g.agentId == id
    && g.response.leaseId == j.leaseId && g.response.commandId == j.commandId
    && g.response.payload.Type() == j.commandType
    && g.response.startedAt == j.startedAt && g.response.scheduledEndAt == j.scheduledEndAt
    && j.scheduledEndAt == ScheduledEnd(g.response.payload, j.startedAt)
    && (j.commandType == DELAY && j.stage == RESULT_SAVED ==> HasDate(j.scheduledEndAt.value))
    && (j.httpSnapshot.Some? <==> j.commandType == HTTP_GET_JSON && j.stage == RESULT_SAVED)
    && (j.httpSnapshot.Some? ==> j.leaseId in fetched && fetched[j.leaseId] == j.httpSnapshot.value)
  }

  predicate ClaimOk(issued: Issued, fetches: seq<LeaseId>, id: AgentId, c: ClaimResponse) {
    && c.leaseId in issued && issued[c.leaseId] == Grant(id, c)
    && c.scheduledEndAt == ScheduledEnd(c.payload, c.startedAt)
    && c.leaseId !in fetches
  }

  /** The process works on the journal that is on disk, at the stage its program point implies. */
  predicate WorksOn(a: Agent, j: Journal, commandType: CommandType, stage: Stage) {
    a.disk == Some(j) && j.commandType == commandType && j.stage == stage
  }

  predicate WaitsFor(a: Agent, j: Journal, target: int) {
    WorksOn(a, j, DELAY, IN_PROGRESS) && j.scheduledEndAt == Some(target) && HasDate(target)
  }

  predicate PcOk(issued: Issued, fetches: seq<LeaseId>, fetched: Results, id: AgentId, a: Agent) {
    match a.pc
    case Claimed(c) =>
      && ClaimOk(issued, fetches, id, c)
      && (a.disk.Some? ==> a.disk.value.leaseId != c.leaseId)
    case Starting(j, payload) =>
      && a.disk == Some(j) && j.stage != RESULT_SAVED
      && j.leaseId in issued && issued[j.leaseId].response.payload == payload
      && (j.commandType == HTTP_GET_JSON ==> j.stage == CLAIMED && j.leaseId !in fetches)
    case Ready(j, payload) => WorksOn(a, j, DELAY, IN_PROGRESS)
    case Waiting(j, target, _) => WaitsFor(a, j, target)
    case Waited(j, target) => WaitsFor(a, j, target)
    case Fetching(j) => WorksOn(a, j, HTTP_GET_JSON, IN_PROGRESS) && j.leaseId !in fetches && j.leaseId !in fetched
    case AwaitingFetch(j) => WorksOn(a, j, HTTP_GET_JSON, IN_PROGRESS) && j.leaseId in fetches && j.leaseId !in fetched
    case Fetched(j, http) =>
      WorksOn(a, j, HTTP_GET_JSON, IN_PROGRESS) && j.leaseId in fetched && fetched[j.leaseId] == http
    case Reporting(j, result) => ReportingOk(issued, fetched, a, j, result)
    case AwaitingAck(j, result) => ReportingOk(issued, fetched, a, j, result)
    case _ => true
  }

  predicate ReportingOk(issued: Issued, fetched: Results, a: Agent, j: Journal, result: CommandResult) {
    && a.disk == Some(j) && j.stage == RESULT_SAVED
    && j.leaseId in issued && ResultOk(issued[j.leaseId], fetched, result)
  }

  predicate AgentOk(issued: Issued, fetches: seq<LeaseId>, fetched: Results, id: AgentId, a: Agent) {
    && (a.disk.Some? ==> JournalOk(issued, fetched, id, a.disk.value))
    && PcOk(issued, fetches, fetched, id, a)
  }

  predicate ReportOk(issued: Issued, fetched: Results, r: Report) {
    && r.leaseId in issued
    && issued[r.leaseId].agentId == r.agentId && issued[r.leaseId].response.commandId == r.commandId
    && ResultOk(issued[r.leaseId], fetched, r.result)
  }

  predicate RowResultOk(issued: Issued, fetched: Results, row: Row) {
    row.status == COMPLETED ==>
      && row.leaseId.Some? && row.leaseId.value in issued && row.result.Some?
      && ResultOk(issued[row.leaseId.value], fetched, row.result.value)
  }

  /** The server has accepted this very report. */
  predicate AckOk(t: Table, r: Report) {
    && r.commandId in t && t[r.commandId].status == COMPLETED
    && t[r.commandId].agentId == Some(r.agentId) && t[r.commandId].leaseId == Some(r.leaseId)
    && t[r.commandId].result == Some(r.result)
  }

  // ---------------------------------------------------------------- the invariant

  ghost predicate AgentsInv(w: World) {
    forall id | id in w.agents :: AgentOk(w.server.issued, w.fetches, w.fetched, id, w.agents[id])
  }

  /** A response under way belongs to a lease nobody has touched yet. */
  ghost predicate ResponsesInv(w: World) {
    forall d | d in w.responses ::
      && ClaimOk(w.server.issued, w.fetches, d.agentId, d.claim)
      && (d.agentId in w.agents ==> !Holds(w.agents[d.agentId], d.claim.leaseId))
  }

  ghost predicate ReportsInv(w: World) {
    forall r | r in w.reports :: ReportOk(w.server.issued, w.fetched, r)
  }

  ghost predicate RowsInv(w: World) {
    forall id | id in w.server.table :: RowResultOk(w.server.issued, w.fetched, w.server.table[id])
  }

  ghost predicate AcksInv(w: World) {
    forall r | r in w.acks :: AckOk(w.server.table, r)
  }

  /** No lease was fetched for twice, and results only come from fetches. */
  ghost predicate FetchInv(w: World) {
    && (forall i, j | 0 <= i < j < |w.fetches| :: w.fetches[i] != w.fetches[j])
    && (forall l | l in w.fetches ::
          l in w.server.issued && w.server.issued[l].response.payload.HttpGetJsonPayload?)
    && (forall l | l in w.fetched :: l in w.fetches)
  }

  ghost predicate SysInv(w: World) {
    && Server.Inv(w.server)
    && AgentsInv(w) && ResponsesInv(w) && ReportsInv(w) && RowsInv(w) && AcksInv(w) && FetchInv(w)
  }

  // ---------------------------------------------------------------- the server's steps

  ghost predicate Extends<K, V>(small: map<K, V>, large: map<K, V>) {
    forall k | k in small :: k in large && large[k] == small[k]
  }

  /** What holds of an agent survives new grants. */
  lemma AgentOkGrows(issued: Issued, issued': Issued, fetches: seq<LeaseId>, fetched: Results, id: AgentId, a: Agent)
    requires Extends(issued, issued') && AgentOk(issued, fetches, fetched, id, a)
    ensures AgentOk(issued', fetches, fetched, id, a)
  {}

  lemma ServeGrows(w: World, op: Op)
    requires CanStep(w, Serve(op))
    ensures Extends(w.server.issued, Apply(w.server, op).issued)
  {}

  lemma ServeKeepsAgents(w: World, op: Op)
    requires AgentsInv(w) && ReportsInv(w) && CanStep(w, Serve(op))
    ensures AgentsInv(AfterServe(w, op)) && ReportsInv(AfterServe(w, op))
  {
    ServeGrows(w, op);
    var issued' := Apply(w.server, op).issued;
    forall id | id in w.agents ensures AgentOk(issued', w.fetches, w.fetched, id, w.agents[id]) {
      AgentOkGrows(w.server.issued, issued', w.fetches, w.fetched, id, w.agents[id]);
    }
  }

  /** Whoever holds a lease got it from the server. */
  lemma HeldIsIssued(issued: Issued, fetches: seq<LeaseId>, fetched: Results, id: AgentId, a: Agent, l: LeaseId)
    requires AgentOk(issued, fetches, fetched, id, a) && Holds(a, l)
    ensures l in issued && issued[l].agentId == id
  {}

  lemma ServeKeepsResponses(w: World, op: Op)
    requires Server.Inv(w.server) && AgentsInv(w) && ResponsesInv(w) && FetchInv(w) && CanStep(w, Serve(op))
    ensures ResponsesInv(AfterServe(w, op)) && FetchInv(AfterServe(w, op))
  {
    ServeGrows(w, op);
    Server.StepKeepsInv(w.server, op);
    var w' := AfterServe(w, op);
    forall d | d in w'.responses
      ensures ClaimOk(w'.server.issued, w.fetches, d.agentId, d.claim)
      ensures d.agentId in w.agents ==> !Holds(w.agents[d.agentId], d.claim.leaseId)
    {
      if d !in w.responses {
        assert GrantOk(w'.server, op.leaseId);
        if d.agentId in w.agents && Holds(w.agents[d.agentId], op.leaseId) {
          HeldIsIssued(w.server.issued, w.fetches, w.fetched, d.agentId, w.agents[d.agentId], op.leaseId);
        }
      }
    }
  }

  lemma ServeKeepsRow(w: World, op: Op, id: CommandId)
    requires Server.Inv(w.server) && ReportsInv(w) && RowsInv(w) && CanStep(w, Serve(op))
    requires id in Apply(w.server, op).table
    ensures RowResultOk(Apply(w.server, op).issued, w.fetched, Apply(w.server, op).table[id])
  {}

  lemma ServeKeepsAcks(w: World, op: Op)
    requires AcksInv(w) && CanStep(w, Serve(op))
    ensures AcksInv(AfterServe(w, op))
  {}

  lemma ServeKeepsInv(w: World, op: Op)
    requires SysInv(w) && CanStep(w, Serve(op))
    ensures SysInv(AfterServe(w, op))
  {
    Server.StepKeepsInv(w.server, op);
    ServeKeepsAgents(w, op);
    ServeKeepsResponses(w, op);
    ServeKeepsAcks(w, op);
    forall id | id in Apply(w.server, op).table
      ensures RowResultOk(Apply(w.server, op).issued, w.fetched, Apply(w.server, op).table[id])
    {
      ServeKeepsRow(w, op, id);
    }
  }

  // ---------------------------------------------------------------- the agents' steps

  predicate CanAct(w: World, id: AgentId, e: Event) {
    id in w.agents && AgentMachine.Enabled(w.agents[id], e)
  }

  /** The events that write or delete the journal. */
  predicate WritesJournal(e: Event) {
    e.SaveClaimed? || e.StartWork? || e.SaveSnapshot? || e.SaveResult? || e.DeleteJournal?
  }

  /** The process that moves stays in order when it writes its journal. */
  lemma WriteStep(w: World, id: AgentId, e: Event)
    requires CanAct(w, id, e) && AgentOk(w.server.issued, w.fetches, w.fetched, id, w.agents[id])
    requires WritesJournal(e) && FetchInv(w)
    ensures var w' := AfterAct(w, id, e);
            AgentOk(w'.server.issued, w'.fetches, w'.fetched, id, w'.agents[id])
  {}

  /** Likewise when it neither writes, loads nor takes in anything. */
  lemma OwnStep(w: World, id: AgentId, e: Event)
    requires CanAct(w, id, e) && AgentOk(w.server.issued, w.fetches, w.fetched, id, w.agents[id])
    requires !WritesJournal(e) && !e.LoadJournal? && !e.ReceiveClaim?
    ensures var w' := AfterAct(w, id, e);
            AgentOk(w'.server.issued, w'.fetches, w'.fetched, id, w'.agents[id])
  {}

  /** Recovery reports what the lease allows, whichever branch it takes. */
  lemma LoadStep(w: World, id: AgentId)
    requires CanAct(w, id, LoadJournal) && AgentOk(w.server.issued, w.fetches, w.fetched, id, w.agents[id])
    ensures var w' := AfterAct(w, id, LoadJournal);
            AgentOk(w'.server.issued, w'.fetches, w'.fetched, id, w'.agents[id])
  {}

  lemma ReceiveStep(w: World, id: AgentId, c: ClaimResponse)
    requires CanStep(w, Act(id, ReceiveClaim(c))) && ResponsesInv(w)
    requires AgentOk(w.server.issued, w.fetches, w.fetched, id, w.agents[id])
    ensures var w' := AfterAct(w, id, ReceiveClaim(c));
            AgentOk(w'.server.issued, w'.fetches, w'.fetched, id, w'.agents[id])
  {}

  /** The lease a moving process fetches for, or None. */
  function Touches(w: World, id: AgentId, e: Event): Option<LeaseId>
    requires CanAct(w, id, e)
  {
    if e.SendFetch? || e.FetchReturns? then Some(w.agents[id].pc.j.leaseId) else None
  }

  lemma TouchesOwn(w: World, id: AgentId, e: Event)
    requires CanAct(w, id, e) && AgentOk(w.server.issued, w.fetches, w.fetched, id, w.agents[id])
    ensures Touches(w, id, e).Some? ==>
              && Touches(w, id, e).value in w.server.issued
              && w.server.issued[Touches(w, id, e).value].agentId == id
              && w.server.issued[Touches(w, id, e).value].response.payload.HttpGetJsonPayload?
              && Holds(w.agents[id], Touches(w, id, e).value)
    ensures e.SendFetch? ==> Touches(w, id, e).value !in w.fetches
    ensures Extends(w.fetched, AfterAct(w, id, e).fetched)
  {}

  /** One process moving disturbs no other: its fetch is under a lease of its own. */
  lemma OthersStep(w: World, id: AgentId, e: Event, other: AgentId)
    requires CanAct(w, id, e) && AgentOk(w.server.issued, w.fetches, w.fetched, id, w.agents[id])
    requires other != id && other in w.agents && AgentOk(w.server.issued, w.fetches, w.fetched, other, w.agents[other])
    ensures var w' := AfterAct(w, id, e);
            AgentOk(w'.server.issued, w'.fetches, w'.fetched, other, w'.agents[other])
  {
    TouchesOwn(w, id, e);
    if e.SendFetch? {
      FetchSentElsewhere(w.server.issued, w.fetches, w.fetched, other, w.agents[other], Touches(w, id, e).value);
    } else if e.FetchReturns? {
      FetchedElsewhere(w.server.issued, w.fetches, w.fetched, other, w.agents[other], Touches(w, id, e).value, e.http);
    }
  }

  lemma FetchSentElsewhere(issued: Issued, fetches: seq<LeaseId>, fetched: Results, id: AgentId, a: Agent, l: LeaseId)
    requires AgentOk(issued, fetches, fetched, id, a) && l in issued && issued[l].agentId != id
    ensures AgentOk(issued, fetches + [l], fetched, id, a)
  {}

  lemma FetchedElsewhere(issued: Issued, fetches: seq<LeaseId>, fetched: Results, id: AgentId, a: Agent, l: LeaseId,
                         http: HttpGetJsonResult)
    requires AgentOk(issued, fetches, fetched, id, a) && l in issued && issued[l].agentId != id
    ensures AgentOk(issued, fetches, fetched[l := http], id, a)
  {}

  lemma ActKeepsAgents(w: World, id: AgentId, e: Event)
    requires AgentsInv(w) && ResponsesInv(w) && FetchInv(w) && CanStep(w, Act(id, e))
    ensures AgentsInv(AfterAct(w, id, e))
  {
    var w' := AfterAct(w, id, e);
    assert AgentOk(w.server.issued, w.fetches, w.fetched, id, w.agents[id]);
    forall other | other in w'.agents
      ensures AgentOk(w'.server.issued, w'.fetches, w'.fetched, other, w'.agents[other])
    {
      if other != id {
        assert AgentOk(w.server.issued, w.fetches, w.fetched, other, w.agents[other]);
        OthersStep(w, id, e, other);
      } else if e.LoadJournal? {
        LoadStep(w, id);
      } else if e.ReceiveClaim? {
        ReceiveStep(w, id, e.claim);
      } else if WritesJournal(e) {
        WriteStep(w, id, e);
      } else {
        OwnStep(w, id, e);
      }
    }
  }

  /** A process holds only the leases it held before, or the one it is just handed. */
  lemma HoldsAfter(a: Agent, e: Event, now: int, l: LeaseId)
    requires AgentMachine.Enabled(a, e) && Holds(AgentMachine.Next(a, e, now), l)
    ensures Holds(a, l) || (e.ReceiveClaim? && e.claim.leaseId == l)
  {}

  lemma ResponseStep(w: World, id: AgentId, e: Event, d: Delivery)
    requires AgentsInv(w) && ResponsesInv(w) && CanStep(w, Act(id, e)) && d in AfterAct(w, id, e).responses
    ensures var w' := AfterAct(w, id, e);
            && ClaimOk(w'.server.issued, w'.fetches, d.agentId, d.claim)
            && (d.agentId in w'.agents ==> !Holds(w'.agents[d.agentId], d.claim.leaseId))
  {
    var w' := AfterAct(w, id, e);
    assert d in w.responses;
    assert AgentOk(w.server.issued, w.fetches, w.fetched, id, w.agents[id]);
    TouchesOwn(w, id, e);
    if d.agentId == id && Holds(w'.agents[id], d.claim.leaseId) {
      HoldsAfter(w.agents[id], e, w.now, d.claim.leaseId);
    }
  }

  lemma ActKeepsMessages(w: World, id: AgentId, e: Event)
    requires AgentsInv(w) && ResponsesInv(w) && ReportsInv(w) && CanStep(w, Act(id, e))
    ensures ResponsesInv(AfterAct(w, id, e)) && ReportsInv(AfterAct(w, id, e))
  {
    var w' := AfterAct(w, id, e);
    forall d | d in w'.responses
      ensures ClaimOk(w'.server.issued, w'.fetches, d.agentId, d.claim)
      ensures d.agentId in w'.agents ==> !Holds(w'.agents[d.agentId], d.claim.leaseId)
    {
      ResponseStep(w, id, e, d);
    }
    forall r | r in w'.reports ensures ReportOk(w'.server.issued, w'.fetched, r) {
      ReportStep(w, id, e, r);
    }
  }

  lemma ReportStep(w: World, id: AgentId, e: Event, r: Report)
    requires AgentsInv(w) && ReportsInv(w) && CanStep(w, Act(id, e)) && r in AfterAct(w, id, e).reports
    ensures ReportOk(AfterAct(w, id, e).server.issued, AfterAct(w, id, e).fetched, r)
  {
    assert AgentOk(w.server.issued, w.fetches, w.fetched, id, w.agents[id]);
    TouchesOwn(w, id, e);
    if r in w.reports {
      assert ReportOk(w.server.issued, w.fetched, r);
    }
  }

  lemma ActKeepsHistory(w: World, id: AgentId, e: Event)
    requires AgentsInv(w) && RowsInv(w) && FetchInv(w) && CanStep(w, Act(id, e))
    ensures RowsInv(AfterAct(w, id, e)) && FetchInv(AfterAct(w, id, e))
  {
    var w' := AfterAct(w, id, e);
    assert AgentOk(w.server.issued, w.fetches, w.fetched, id, w.agents[id]);
    TouchesOwn(w, id, e);
    forall row | row in w'.server.table ensures RowResultOk(w'.server.issued, w'.fetched, w'.server.table[row]) {
      assert RowResultOk(w.server.issued, w.fetched, w.server.table[row]);
    }
    assert e.SendFetch? ==> forall m :: m in w'.fetches <==> m in w.fetches || m == Touches(w, id, e).value;
  }

  lemma ActKeepsInv(w: World, id: AgentId, e: Event)
    requires SysInv(w) && CanStep(w, Act(id, e))
    ensures SysInv(AfterAct(w, id, e))
  {
    ActKeepsAgents(w, id, e);
    ActKeepsMessages(w, id, e);
    ActKeepsHistory(w, id, e);
  }

  /** One step of anyone, whatever the clock reads, keeps the invariant. */
  lemma StepKeepsSysInv(w: World, step: Step)
    requires SysInv(w) && CanStep(w, step)
    ensures SysInv(After(w, step))
  {
    match step
    case Serve(op) => ServeKeepsInv(w, op);
    case Act(id, e) => ActKeepsInv(w, id, e);
    case Tick(_) =>
  }

  lemma {:induction false} PathKeepsSysInv(w: World, steps: seq<Step>, timed: bool, k: nat)
    requires k <= |steps| && SysInv(w) && Path(w, steps, timed)
    ensures SysInv(WorldAt(w, steps, k))
    decreases k
  {
    if k > 0 {
      PathKeepsSysInv(w, steps, timed, k - 1);
      assert Allowed(WorldAt(w, steps, k - 1), steps[k - 1], timed);
      StepKeepsSysInv(WorldAt(w, steps, k - 1), steps[k - 1]);
    }
  }

  lemma InitSysInv(w: World)
    requires Init(w)
    ensures SysInv(w)
  {}

  lemma BehaviorKeepsSysInv(w: World, steps: seq<Step>, timed: bool, k: nat)
    requires k <= |steps| && Behavior(w, steps, timed)
    ensures SysInv(WorldAt(w, steps, k))
  {
    InitSysInv(w);
    PathKeepsSysInv(w, steps, timed, k);
  }

  /** What one step of a run may rely on. */
  lemma BehaviorStep(w: World, steps: seq<Step>, timed: bool, k: nat)
    requires k < |steps| && Behavior(w, steps, timed)
    ensures SysInv(WorldAt(w, steps, k))
    ensures CanStep(WorldAt(w, steps, k), steps[k]) && (timed ==> KeepsTime(WorldAt(w, steps, k), steps[k]))
    ensures WorldAt(w, steps, k + 1) == After(WorldAt(w, steps, k), steps[k])
  {
    BehaviorKeepsSysInv(w, steps, timed, k);
    assert Allowed(WorldAt(w, steps, k), steps[k], timed);
  }

  /** Every state of every run satisfies the invariant. */
  lemma ReachableInv(w: World, timed: bool)
    requires Reachable(w, timed)
    ensures SysInv(w)
  {
    var start, steps :| EndsIn(start, steps, timed, w);
    BehaviorKeepsSysInv(start, steps, timed, |steps|);
  }
}
