/**
 Families of concrete runs, for every delay and every clock reading: the ones that show where
 a promise stops holding. Agents 0 and 1 share one server with the single command 0.
 */
module Scenarios {
  import opened Commands
  import opened Server
  import opened AgentMachine
  import opened QueueSystem

  function Pair(server: State, first: Agent, second: Agent, responses: set<Delivery>, now: int): World {
    World(server, map[0 := first, 1 := second], responses, {}, {}, [], map[], now)
  }

  function ClaimedBy(row: Row, agentId: AgentId, leaseId: LeaseId, now: int): Row {
    ClaimRow(row, agentId, leaseId, LEASE_MS, now)
  }

  function FirstRow(ms: int, start: int): Row {
    ClaimedBy(NewRow(0, DelayPayload(ms), start), 0, 0, start)
  }

  function FirstClaim(ms: int, start: int): ClaimResponse {
    ClaimResponse(0, DelayPayload(ms), 0, start + LEASE_MS, start, Some(start + ms))
  }

  function FirstServer(ms: int, start: int): State {
    State(map[0 := FirstRow(ms, start)], map[0 := Grant(0, FirstClaim(ms, start))])
  }

  const ASLEEP := Agent(Down, None)

  // ---------------------------------------------------------------- single steps

  /** One event of one agent that needs nothing from the network. */
  lemma Moved(w: World, id: AgentId, e: Event, timed: bool) returns (w': World)
    requires Reachable(w, timed) && id in w.agents && AgentMachine.Enabled(w.agents[id], e)
    requires !e.ReceiveClaim? && !e.Acknowledged? && (e.TimerFires? ==> w.agents[id].pc.due <= w.now)
    ensures Reachable(w', timed) && w' == AfterAct(w, id, e)
  {
    StepReachable(w, Act(id, e), timed);
    w' := After(w, Act(id, e));
  }

  lemma Received(w: World, id: AgentId, c: ClaimResponse, timed: bool) returns (w': World)
    requires Reachable(w, timed) && id in w.agents && w.agents[id].pc.Claiming? && Delivery(id, c) in w.responses
    ensures Reachable(w', timed) && w' == AfterAct(w, id, ReceiveClaim(c))
  {
    StepReachable(w, Act(id, ReceiveClaim(c)), timed);
    w' := After(w, Act(id, ReceiveClaim(c)));
  }

  lemma Served(w: World, op: Op, timed: bool) returns (w': World)
    requires Reachable(w, timed) && CanStep(w, Serve(op))
    ensures Reachable(w', timed) && w' == AfterServe(w, op)
  {
    StepReachable(w, Serve(op), timed);
    w' := After(w, Serve(op));
  }

  lemma Ticked(w: World, now: int, timed: bool) returns (w': World)
    requires Reachable(w, timed) && w.now <= now
    ensures Reachable(w', timed) && w' == w.(now := now)
  {
    StepReachable(w, Tick(now), timed);
    w' := After(w, Tick(now));
  }

  /** The process is killed, restarted, and finds its journal. */
  lemma Restarted(w: World, id: AgentId, timed: bool) returns (w': World)
    requires Reachable(w, timed) && id in w.agents && !w.agents[id].pc.Down? && w.agents[id].disk.Some?
    ensures Reachable(w', timed)
    ensures var a := w.agents[id];
            w' == w.(agents := w.agents[id := Agent(Recover(a.disk.value, w.now), a.disk)])
  {
    hide Reachable;
    w' := Moved(w, id, Crash, timed);
    w' := Moved(w', id, Boot, timed);
    w' := Moved(w', id, LoadJournal, timed);
    assert w'.fetches == w.fetches;
  }

  /** A process without a journal starts and asks for work. */
  lemma Asked(w: World, id: AgentId, timed: bool) returns (w': World)
    requires Reachable(w, timed) && id in w.agents && w.agents[id] == ASLEEP && w.responses == {}
    ensures Reachable(w', timed) && w' == w.(agents := w.agents[id := Agent(Claiming, None)])
  {
    hide Reachable;
    w' := Moved(w, id, Boot, timed);
    w' := Moved(w', id, LoadEmpty, timed);
    w' := Moved(w', id, SendClaim, timed);
    assert w'.fetches == w.fetches;
  }

  // ---------------------------------------------------------------- the common beginning

  function NewServer(ms: int, start: int): State {
    State(map[0 := NewRow(0, DelayPayload(ms), start)], map[])
  }

  /** Command 0 is waiting and agent 0 has asked for work. */
  lemma AgentAsks(ms: int, start: int, timed: bool) returns (w: World)
    ensures Reachable(w, timed) && w == Pair(NewServer(ms, start), Agent(Claiming, None), ASLEEP, {}, start)
  {
    hide Reachable;
    w := Pair(EMPTY, ASLEEP, ASLEEP, {}, start);
    StartReachable(w, timed);
    w := Served(w, Create(0, DelayPayload(ms), start), timed);
    w := Asked(w, 0, timed);
    assert w == Pair(NewServer(ms, start), Agent(Claiming, None), ASLEEP, {}, start);
  }

  function FirstJournal(ms: int, start: int, stage: Stage): Journal {
    Journal(0, 0, DELAY, start, Some(start + ms), None, stage)
  }

  function FirstReady(ms: int, start: int): Agent {
    Agent(Ready(FirstJournal(ms, start, IN_PROGRESS), DelayPayload(ms)), Some(FirstJournal(ms, start, IN_PROGRESS)))
  }

  /** The server has granted command 0 to agent 0. */
  lemma AgentClaims(ms: int, start: int, timed: bool) returns (w: World)
    ensures Reachable(w, timed)
    ensures w == Pair(FirstServer(ms, start), Agent(Claimed(FirstClaim(ms, start)), None), ASLEEP, {}, start)
  {
    hide Reachable;
    w := AgentAsks(ms, start, timed);
    assert OldestPending(w.server.table, 0);
    w := Served(w, Claim(Some(0), 0, 0, LEASE_MS, start), timed);
    assert w.server == FirstServer(ms, start);
    w := Received(w, 0, FirstClaim(ms, start), timed);
    assert w.responses == {};
  }

  /** Agent 0 is about to set its timer. */
  lemma AgentReady(ms: int, start: int, timed: bool) returns (w: World)
    ensures Reachable(w, timed) && w == Pair(FirstServer(ms, start), FirstReady(ms, start), ASLEEP, {}, start)
  {
    hide Reachable;
    w := AgentClaims(ms, start, timed);
    w := Moved(w, 0, SaveClaimed, timed);
    w := Moved(w, 0, StartWork, timed);
  }

  // ---------------------------------------------------------------- a delay from claim to completion

  /** How long the executor really waits. */
  function WaitMs(ms: int): nat {
    if ms <= 0 then 0 else TimerDelay(ms)
  }

  /** Agent 0 has waited, and saved the result without having reported it. */
  lemma DelaySaved(ms: int, start: int) returns (w: World)
    requires HasDate(start + ms)
    ensures Reachable(w, true) && w.server == FirstServer(ms, start) && w.now == start + WaitMs(ms)
    ensures w.reports == {} && w.acks == {}
    ensures var j := FirstJournal(ms, start, RESULT_SAVED);
            w.agents == map[0 := Agent(Reporting(j, DelayResult(true, ms)), Some(j)), 1 := ASLEEP]
  {
    hide Reachable;
    w := AgentReady(ms, start, true);
    w := Moved(w, 0, SetTimer, true);
    if ms > 0 {
      w := Ticked(w, start + WaitMs(ms), true);
      w := Moved(w, 0, TimerFires, true);
    }
    w := Moved(w, 0, SaveResult, true);
  }

  function FirstReport(ms: int): Op {
    Complete(0, 0, 0, DelayResult(true, ms))
  }

  lemma DelayReported(ms: int, start: int) returns (w: World)
    requires HasDate(start + ms)
    ensures Reachable(w, true) && w.server == FirstServer(ms, start) && w.now == start + WaitMs(ms)
    ensures ReportOf(FirstReport(ms)) in w.reports
  {
    hide Reachable;
    w := DelaySaved(ms, start);
    w := Moved(w, 0, SendComplete, true);
  }

  /** The command is completed after what the timer made of the delay. */
  lemma DelayCompletes(ms: int, start: int) returns (w: World)
    requires HasDate(start + ms)
    ensures Reachable(w, true) && 0 in w.server.table && w.server.table[0].status == COMPLETED
    ensures w.server.table[0].payload == DelayPayload(ms) && w.server.table[0].startedAt == Some(start)
    ensures w.now == start + WaitMs(ms)
  {
    hide Reachable;
    w := DelayReported(ms, start);
    w := Served(w, FirstReport(ms), true);
  }

  // ---------------------------------------------------------------- a report after the expiry

  /** The first and only claim of the command has run out without a heartbeat or a restart, and
      its report arrives. */
  lemma ReportComesLate(ms: int, start: int) returns (w: World)
    requires HasDate(start + ms)
    ensures Reachable(w, true) && w.server == FirstServer(ms, start) && CanStep(w, Serve(FirstReport(ms)))
    ensures w.now >= start + LEASE_MS
    ensures LEASE_MS <= ms <= MAX_TIMER_MS ==> w.now == start + ms
  {
    hide Reachable;
    w := DelayReported(ms, start);
    if w.now < start + LEASE_MS {
      w := Ticked(w, start + LEASE_MS, true);
    }
  }

  // ---------------------------------------------------------------- a scheduled end at instant 0

  /** The agent crashed before it could report, recovers, and reports what it reads off the clock. */
  lemma RecoveredAtZero(ms: int) returns (w: World)
    ensures Reachable(w, true) && w.server == FirstServer(ms, -ms) && w.now != 0
    ensures Report(0, 0, 0, DelayResult(true, w.now + ms)) in w.reports
  {
    hide Reachable;
    w := DelaySaved(ms, -ms);
    w := Ticked(w, if w.now < 1 then 1 else w.now, true);
    w := Restarted(w, 0, true);
    w := Moved(w, 0, SendComplete, true);
  }

  /** Since the scheduled end is 0, the replayed result comes from the clock; the server stores it. */
  lemma ReplayAtZero(ms: int) returns (w: World)
    ensures Reachable(w, true) && 0 in w.server.table && w.server.table[0].status == COMPLETED
    ensures w.server.table[0].payload == DelayPayload(ms) && w.server.table[0].startedAt == Some(-ms)
    ensures w.server.table[0].result.Some? && w.server.table[0].result != Some(DelayResult(true, ms))
  {
    hide Reachable;
    w := RecoveredAtZero(ms);
    w := Served(w, Complete(0, 0, 0, DelayResult(true, w.now + ms)), true);
  }

  // ---------------------------------------------------------------- a lease overrun, and a second claim

  /** Agent 0 is waiting when its lease runs out. */
  lemma LeaseOverrun(ms: int, start: int) returns (w: World)
    requires ms > 0 && HasDate(start + ms)
    ensures Reachable(w, true) && w.server == FirstServer(ms, start) && w.now == start + LEASE_MS && w.responses == {}
    ensures var j := FirstJournal(ms, start, IN_PROGRESS);
            w.agents == map[0 := Agent(Waiting(j, start + ms, start + TimerDelay(ms)), Some(j)), 1 := ASLEEP]
  {
    hide Reachable;
    w := AgentReady(ms, start, true);
    w := Moved(w, 0, SetTimer, true);
    w := Ticked(w, start + LEASE_MS, true);
  }

  /** The server has restarted, and agent 1 has asked for work. */
  lemma ResetAndAsked(ms: int, start: int) returns (w: World)
    requires ms > 0 && HasDate(start + ms)
    ensures Reachable(w, true) && w.now == start + LEASE_MS && w.responses == {}
    ensures w.server.issued.Keys == {0} && w.server.table == map[0 := ResetRow(FirstRow(ms, start))]
    ensures w.agents.Keys == {0, 1} && w.agents[1] == Agent(Claiming, None)
    ensures w.agents[0].pc == Waiting(FirstJournal(ms, start, IN_PROGRESS), start + ms, start + TimerDelay(ms))
  {
    hide Reachable;
    w := LeaseOverrun(ms, start);
    w := Served(w, Restart(start + LEASE_MS), true);
    w := Asked(w, 1, true);
  }

  /** The command is granted to agent 1. */
  lemma ClaimedAgain(ms: int, start: int) returns (w: World)
    requires ms > 0 && HasDate(start + ms)
    ensures Reachable(w, true) && w.now == start + LEASE_MS && 0 in w.agents && 1 in w.agents
    ensures w.agents[0].pc == Waiting(FirstJournal(ms, start, IN_PROGRESS), start + ms, start + TimerDelay(ms))
    ensures var again := start + LEASE_MS;
            w.agents[1].pc == Claimed(ClaimResponse(0, DelayPayload(ms), 1, again + LEASE_MS, again, Some(again + ms)))
  {
    hide Reachable;
    w := ResetAndAsked(ms, start);
    assert OldestPending(w.server.table, 0);
    w := Served(w, Claim(Some(0), 1, 1, LEASE_MS, w.now), true);
    w := Received(w, 1, w.server.issued[1].response, true);
  }

  /** Both agents wait for the same command, for instants one lease apart. */
  lemma DelayStartsOver(ms: int, start: int) returns (w: World)
    requires ms > 0 && HasDate(start + ms) && HasDate(start + LEASE_MS + ms)
    ensures Reachable(w, true) && 0 in w.agents && 1 in w.agents
    ensures w.agents[0].pc.Waiting? && w.agents[0].pc.j.commandId == 0 && w.agents[0].pc.target == start + ms
    ensures w.agents[1].pc.Waiting? && w.agents[1].pc.j.commandId == 0
    ensures w.agents[1].pc.target == start + LEASE_MS + ms
  {
    hide Reachable;
    w := ClaimedAgain(ms, start);
    w := Moved(w, 1, SaveClaimed, true);
    w := Moved(w, 1, StartWork, true);
    w := Moved(w, 1, SetTimer, true);
  }
}
