/**
 Continuing a run from any state: what the agents and the server can always be brought to do next.
 */
module Continuations {
  import opened Commands
  import opened Server
  import opened AgentMachine
  import opened QueueSystem
  import opened SystemInv
  import opened Guarantees
  import Drain

  // ---------------------------------------------------------------- continuing a run

  /** No restart, no time passing, and no I/O error. */
  predicate Quiet(step: Step) {
    match step
    case Serve(op) => !op.Restart?
    case Act(_, e) => !e.LoadError? && !e.DeleteFails? && !e.SaveClaimedFails?
    case Tick(_) => false
  }

  ghost predicate QuietPath(origin: World, steps: seq<Step>, timed: bool, w: World) {
    && Path(origin, steps, timed) && WorldAt(origin, steps, |steps|) == w
    && forall k | 0 <= k < |steps| :: Quiet(steps[k])
  }

  /** Quiet steps lead from here to there. */
  ghost predicate Leads(origin: World, w: World, timed: bool) {
    SysInv(w) && exists steps :: QuietPath(origin, steps, timed, w)
  }

  lemma Takes(origin: World, w: World, step: Step, timed: bool) returns (w': World)
    requires Leads(origin, w, timed) && Allowed(w, step, timed) && Quiet(step)
    ensures Leads(origin, w', timed) && w' == After(w, step)
  {
    hide SysInv, After;
    w' := After(w, step);
    StepKeepsSysInv(w, step);
    hide Allowed;
    var steps :| QuietPath(origin, steps, timed, w);
    PathExtends(origin, steps, step, timed);
    assert QuietPath(origin, steps + [step], timed, w');
  }

  lemma LeadsNowhere(w: World, timed: bool)
    requires SysInv(w)
    ensures Leads(w, w, timed)
  {
    assert QuietPath(w, [], timed, w);
  }

  lemma Serves(origin: World, w: World, op: Op, timed: bool) returns (w': World)
    requires Leads(origin, w, timed) && CanStep(w, Serve(op)) && !op.Restart?
    ensures Leads(origin, w', timed) && w' == AfterServe(w, op)
  {
    hide Leads;
    w' := Takes(origin, w, Serve(op), timed);
  }

  /** An event that sends, receives and waits for nothing. */
  predicate Plain(e: Event) {
    !e.ReceiveClaim? && !e.Acknowledged? && !e.TimerFires? && !e.LoadError? && !e.DeleteFails? && !e.SaveClaimedFails?
  }

  /** Server, clock and all other agents are as before, and requests were at most added. */
  predicate OnlyMoved(w: World, w': World, id: AgentId) {
    && w'.server == w.server && w'.now == w.now && w'.agents.Keys == w.agents.Keys && w.fetches <= w'.fetches
    && forall other | other in w.agents && other != id :: w'.agents[other] == w.agents[other]
  }

  lemma Moves(origin: World, w: World, id: AgentId, e: Event, timed: bool) returns (w': World)
    requires Leads(origin, w, timed) && id in w.agents && AgentMachine.Enabled(w.agents[id], e) && Plain(e)
    ensures Leads(origin, w', timed) && OnlyMoved(w, w', id)
    ensures w'.agents[id] == AgentMachine.Next(w.agents[id], e, w.now)
  {
    hide Leads;
    w' := Takes(origin, w, Act(id, e), timed);
  }

  lemma Reports(origin: World, w: World, id: AgentId, timed: bool) returns (w': World)
    requires Leads(origin, w, timed) && id in w.agents && w.agents[id].pc.Reporting?
    ensures Leads(origin, w', timed) && OnlyMoved(w, w', id) && w'.agents[id].pc.Cleaning?
  {
    hide Leads;
    w' := Moves(origin, w, id, SendComplete, timed);
    w' := Moves(origin, w', id, NotAcknowledged, timed);
  }

  /** A process that has just started can get rid of whatever journal it finds. */
  lemma Recovers(origin: World, w: World, id: AgentId, timed: bool) returns (w': World)
    requires Leads(origin, w, timed) && id in w.agents && w.agents[id].pc.Booting?
    ensures Leads(origin, w', timed) && OnlyMoved(w, w', id) && w'.agents[id].pc.Idle?
  {
    hide Leads;
    if w.agents[id].disk.None? {
      w' := Moves(origin, w, id, LoadEmpty, timed);
    } else {
      w' := Moves(origin, w, id, LoadJournal, timed);
      if w'.agents[id].pc.Reporting? {
        w' := Reports(origin, w', id, timed);
      } else if w'.agents[id].pc.Starting? {
        w' := Moves(origin, w', id, Abandon, timed);
      }
      w' := Moves(origin, w', id, DeleteJournal, timed);
    }
  }

  lemma Reboots(origin: World, w: World, id: AgentId, timed: bool) returns (w': World)
    requires Leads(origin, w, timed) && id in w.agents
    ensures Leads(origin, w', timed) && OnlyMoved(w, w', id)
    ensures w'.agents[id] == Agent(Booting, w.agents[id].disk)
  {
    hide Leads;
    w' := w;
    if !w.agents[id].pc.Down? {
      w' := Moves(origin, w', id, Crash, timed);
    }
    w' := Moves(origin, w', id, Boot, timed);
  }

  /** Any agent can come to ask for work. */
  lemma Asks(origin: World, w: World, id: AgentId, timed: bool) returns (w': World)
    requires Leads(origin, w, timed) && id in w.agents
    ensures Leads(origin, w', timed) && OnlyMoved(w, w', id) && w'.agents[id].pc.Claiming?
  {
    hide Leads;
    w' := w;
    if !w.agents[id].pc.Claiming? {
      w' := Reboots(origin, w', id, timed);
      w' := Recovers(origin, w', id, timed);
      w' := Moves(origin, w', id, SendClaim, timed);
    }
  }

  /** The process as it enters the executor with a new claim. */
  function Begun(c: ClaimResponse): Agent {
    Agent(Starting(ClaimedJournal(c), c.payload), Some(ClaimedJournal(c)))
  }

  lemma SavesClaim(origin: World, w: World, id: AgentId, timed: bool) returns (w': World)
    requires Leads(origin, w, timed) && id in w.agents && w.agents[id].pc.Claimed?
    ensures Leads(origin, w', timed) && OnlyMoved(w, w', id)
    ensures w'.agents[id] == Begun(w.agents[id].pc.claim) && WorksFor(w'.agents[id], w.agents[id].pc.claim.commandId)
  {
    hide Leads;
    w' := Moves(origin, w, id, SaveClaimed, timed);
  }

  /** A granted command is executed once the response arrives and the journal is saved. */
  lemma TakesUp(origin: World, w: World, id: AgentId, c: ClaimResponse, timed: bool) returns (w': World)
    requires Leads(origin, w, timed) && id in w.agents && w.agents[id].pc.Claiming? && Delivery(id, c) in w.responses
    ensures Leads(origin, w', timed) && OnlyMoved(w, w', id)
    ensures w'.agents[id] == Begun(c) && WorksFor(w'.agents[id], c.commandId)
  {
    hide Leads;
    w' := Takes(origin, w, Act(id, ReceiveClaim(c)), timed);
    w' := SavesClaim(origin, w', id, timed);
  }

  function PendingIds(t: Table): set<CommandId> {
    set id | id in t && t[id].status == PENDING
  }

  /** The command runs under this very claim of the agent's. */
  predicate RunsUnder(s: State, id: CommandId, agentId: AgentId, c: ClaimResponse) {
    && c.commandId == id && Current(s.table, id, agentId, c.leaseId)
    && c.leaseId in s.issued && s.issued[c.leaseId] == Grant(agentId, c)
  }

  /** The claim was made at `now` for the payload the command had. */
  predicate ClaimedAt(c: ClaimResponse, payload: Payload, now: int) {
    c.payload == payload && c.startedAt == now && c.scheduledEndAt == ScheduledEnd(payload, now)
  }

  /** The claim is a new one, and the earlier ones are as they were. */
  ghost predicate Granted(s: State, s': State, c: ClaimResponse) {
    && Extends(s.issued, s'.issued) && c.leaseId !in s.issued
    && c.leaseId in s'.issued && s'.issued[c.leaseId].response == c
  }

  lemma ClaimsOldest(s: State, op: Op)
    requires Server.Inv(s) && op.Claim? && op.pick.Some? && Legal(s, op)
    ensures PendingIds(Apply(s, op).table) == PendingIds(s.table) - {op.pick.value}
    ensures op.leaseId in Apply(s, op).issued
    ensures var c := Apply(s, op).issued[op.leaseId].response;
            && c.leaseId == op.leaseId && RunsUnder(Apply(s, op), op.pick.value, op.agentId, c)
            && ClaimedAt(c, s.table[op.pick.value].payload, op.now)
    ensures forall other | other in s.table :: other in Apply(s, op).table &&
              Apply(s, op).table[other].payload == s.table[other].payload
  {
    assert RowOk(s, op.pick.value);
  }

  lemma ClaimFor(origin: World, w: World, id: CommandId, b: AgentId, timed: bool) returns (w': World, c: ClaimResponse)
    requires Leads(origin, w, timed) && OldestPending(w.server.table, id)
    ensures Leads(origin, w', timed) && w'.agents == w.agents && w'.now == w.now && w'.fetches == w.fetches
    ensures Delivery(b, c) in w'.responses && RunsUnder(w'.server, id, b, c)
    ensures ClaimedAt(c, w.server.table[id].payload, w.now) && Granted(w.server, w'.server, c)
    ensures PendingIds(w'.server.table) == PendingIds(w.server.table) - {id}
    ensures forall other | other in w.server.table :: other in w'.server.table &&
              w'.server.table[other].payload == w.server.table[other].payload
  {
    assert Server.Inv(w.server);
    var l := Drain.UnusedLease(w.server.issued.Keys);
    var op := Claim(Some(id), b, l, LEASE_MS, w.now);
    ServeGrows(w, op);
    hide Leads, PendingIds, OldestPending, Apply, Server.Inv, RunsUnder, ClaimedAt;
    ClaimsOldest(w.server, op);
    w' := Serves(origin, w, op, timed);
    c := w'.server.issued[l].response;
  }

  /** Agent `b` is granted the command, if need be after older commands whose responses are lost. */
  lemma {:induction false} Grants(origin: World, w: World, id: CommandId, b: AgentId, timed: bool)
    returns (w': World, c: ClaimResponse)
    requires Leads(origin, w, timed) && id in PendingIds(w.server.table)
    ensures Leads(origin, w', timed) && w'.agents == w.agents && w'.now == w.now && w'.fetches == w.fetches
    ensures Delivery(b, c) in w'.responses && RunsUnder(w'.server, id, b, c)
    ensures ClaimedAt(c, w.server.table[id].payload, w.now) && Granted(w.server, w'.server, c)
    decreases PendingIds(w.server.table)
  {
    hide Leads, RunsUnder, ClaimedAt;
    var ids := PendingIds(w.server.table);
    var oldest := Drain.OldestOf(w.server.table, ids);
    assert forall other | Pending(w.server.table, other) :: other in ids;
    w', c := ClaimFor(origin, w, oldest, b, timed);
    if oldest != id {
      w', c := Grants(origin, w', id, b, timed);
    }
  }

  /** An agent that has just begun with its claim. */
  predicate Begins(w: World, b: AgentId, c: ClaimResponse) {
    b in w.agents && w.agents[b] == Begun(c) && RunsUnder(w.server, c.commandId, b, c)
  }

  /** Any agent can come to begin with a command that is waiting. */
  lemma ComesToBegin(origin: World, w: World, id: CommandId, b: AgentId, timed: bool)
    returns (w': World, c: ClaimResponse)
    requires Leads(origin, w, timed) && Pending(w.server.table, id) && b in w.agents
    ensures Leads(origin, w', timed) && Begins(w', b, c) && c.commandId == id && w.fetches <= w'.fetches
    ensures ClaimedAt(c, w.server.table[id].payload, w.now) && Granted(w.server, w'.server, c)
  {
    assert id in PendingIds(w.server.table);
    hide Leads, ClaimedAt, Granted;
    w' := Asks(origin, w, b, timed);
    w', c := Grants(origin, w', id, b, timed);
    w' := TakesUp(origin, w', b, c, timed);
  }

  lemma {:induction false} OnwardReachable(w: World, steps: seq<Step>, timed: bool, k: nat)
    requires Reachable(w, timed) && Path(w, steps, timed) && k <= |steps|
    ensures Reachable(WorldAt(w, steps, k), timed)
    decreases k
  {
    if k > 0 {
      OnwardReachable(w, steps, timed, k - 1);
      assert Allowed(WorldAt(w, steps, k - 1), steps[k - 1], timed);
      StepReachable(WorldAt(w, steps, k - 1), steps[k - 1], timed);
    }
  }

  lemma LeadsReachable(w: World, w': World, timed: bool)
    requires Reachable(w, timed) && Leads(w, w', timed)
    ensures Reachable(w', timed)
  {
    var steps :| QuietPath(w, steps, timed, w');
    OnwardReachable(w, steps, timed, |steps|);
  }

  // ---------------------------------------------------------------- any steps at all

  ghost predicate PathTo(origin: World, steps: seq<Step>, timed: bool, w: World) {
    Path(origin, steps, timed) && WorldAt(origin, steps, |steps|) == w
  }

  /** Some steps lead from here to there. */
  ghost predicate Goes(origin: World, w: World, timed: bool) {
    SysInv(w) && exists steps :: PathTo(origin, steps, timed, w)
  }

  lemma Proceeds(origin: World, w: World, step: Step, timed: bool) returns (w': World)
    requires Goes(origin, w, timed) && Allowed(w, step, timed)
    ensures Goes(origin, w', timed) && w' == After(w, step)
  {
    hide SysInv, After;
    w' := After(w, step);
    StepKeepsSysInv(w, step);
    hide Allowed;
    var steps :| PathTo(origin, steps, timed, w);
    PathExtends(origin, steps, step, timed);
    assert PathTo(origin, steps + [step], timed, w');
  }

  lemma GoesReachable(w: World, w': World, timed: bool)
    requires Reachable(w, timed) && Goes(w, w', timed)
    ensures Reachable(w', timed)
  {
    var steps :| PathTo(w, steps, timed, w');
    OnwardReachable(w, steps, timed, |steps|);
  }

  lemma GoesNowhere(w: World, timed: bool)
    requires SysInv(w)
    ensures Goes(w, w, timed)
  {
    assert PathTo(w, [], timed, w);
  }

  lemma {:induction false} GoesAlong(origin: World, w: World, steps: seq<Step>, timed: bool, k: nat)
    requires Goes(origin, w, timed) && Path(w, steps, timed) && k <= |steps|
    ensures Goes(origin, WorldAt(w, steps, k), timed)
    decreases k
  {
    hide Goes;
    if k > 0 {
      GoesAlong(origin, w, steps, timed, k - 1);
      assert Allowed(WorldAt(w, steps, k - 1), steps[k - 1], timed);
      var _ := Proceeds(origin, WorldAt(w, steps, k - 1), steps[k - 1], timed);
    }
  }

  lemma GoesOn(origin: World, w: World, w': World, timed: bool)
    requires Goes(origin, w, timed) && Leads(w, w', timed)
    ensures Goes(origin, w', timed)
  {
    var steps :| QuietPath(w, steps, timed, w');
    GoesAlong(origin, w, steps, timed, |steps|);
  }
}
