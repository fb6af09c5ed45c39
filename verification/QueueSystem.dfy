/**
 The whole system: one server, any number of agents with distinct ids, and a network that
 delays and loses messages. Claim responses are delivered at most once, and not any more once
 the agent has sent its next claim request; a completion report, once sent, may reach the server
 at any later time, any number of times, or never. Every other request (create, claim,
 heartbeat, fail) may be made at any time with any arguments, which covers delayed, repeated and
 stray requests of the agents. `now` is the clock reading the next step sees; between steps it
 may change arbitrarily, also backwards.
 */
module QueueSystem {
  import opened Commands
  import opened Server
  import opened AgentMachine

  datatype Delivery = Delivery(agentId: AgentId, claim: ClaimResponse)

  datatype Report = Report(commandId: CommandId, agentId: AgentId, leaseId: LeaseId, result: CommandResult)

  /** `fetches` and `fetched` are history: requests sent to the outside, and results received. */
  datatype World = World(
    server: Server.State,
    agents: map<AgentId, Agent>,
    responses: set<Delivery>,
    reports: set<Report>,
    acks: set<Report>,
    fetches: seq<LeaseId>,
    fetched: map<LeaseId, HttpGetJsonResult>,
    now: int)

  datatype Step =
    | Serve(op: Op)
    | Act(agentId: AgentId, event: Event)
    | Tick(now: int)

  predicate Init(w: World) {
    && w.server == EMPTY
    && (forall id | id in w.agents :: w.agents[id] == Agent(Down, None))
    && w.responses == {} && w.reports == {} && w.acks == {} && w.fetches == [] && w.fetched == map[]
  }

  function ReportOf(op: Op): Report
    requires op.Complete?
  {
    Report(op.id, op.agentId, op.leaseId, op.result)
  }

  /** Every clock reading of a step is the current one. */
  predicate ReadsClock(op: Op, now: int) {
    (op.Create? || op.Claim? || op.Heartbeat? || op.Restart?) ==> op.now == now
  }

  ghost predicate CanStep(w: World, step: Step) {
    match step
    case Serve(op) =>
      && Legal(w.server, op) && ReadsClock(op, w.now)
      && (op.Complete? ==> ReportOf(op) in w.reports)
    case Act(id, e) =>
      && id in w.agents && AgentMachine.Enabled(w.agents[id], e)
      && (e.ReceiveClaim? ==> Delivery(id, e.claim) in w.responses)
      && (e.Acknowledged? ==>
            var pc := w.agents[id].pc;
            Report(pc.j.commandId, id, pc.j.leaseId, pc.result) in w.acks)
    case Tick(_) => true
  }

  function AfterServe(w: World, op: Op): World {
    var server := Apply(w.server, op);
    var handedOut :=
      if op.Claim? && op.pick.Some? && op.leaseId in server.issued
      then {Delivery(op.agentId, server.issued[op.leaseId].response)} else {};
    var acked := if op.Complete? && Accepted(w.server, op) then {ReportOf(op)} else {};
    w.(server := server, responses := w.responses + handedOut, acks := w.acks + acked)
  }

  function AfterAct(w: World, id: AgentId, e: Event): World
    requires id in w.agents && AgentMachine.Enabled(w.agents[id], e)
  {
    var a := w.agents[id];
    var gone :=
      if e.ReceiveClaim? then {Delivery(id, e.claim)}
      else if e.SendClaim? then set d | d in w.responses && d.agentId == id else {};
    var sent := if e.SendComplete? then {Report(a.pc.j.commandId, id, a.pc.j.leaseId, a.pc.result)} else {};
    var requested := if e.SendFetch? then [a.pc.j.leaseId] else [];
    var fetched := if e.FetchReturns? then w.fetched[a.pc.j.leaseId := e.http] else w.fetched;
    w.(agents := w.agents[id := AgentMachine.Next(a, e, w.now)], responses := w.responses - gone,
    reports := w.reports + sent, fetches := w.fetches + requested, fetched := fetched)
  }

  /** A step that is not possible leaves the world as it is. */
  function After(w: World, step: Step): World {
    match step
    case Serve(op) => AfterServe(w, op)
    case Act(id, e) =>
      if id in w.agents && AgentMachine.Enabled(w.agents[id], e) then AfterAct(w, id, e) else w
    case Tick(now) => w.(now := now)
  }

  /** One clock shared by all, which never runs backwards, and timers that never fire early. */
  predicate KeepsTime(w: World, step: Step)
    requires step.Act? && step.event.TimerFires? ==>
               step.agentId in w.agents && w.agents[step.agentId].pc.Waiting?
  {
    match step
    case Tick(now) => w.now <= now
    case Act(id, TimerFires) => w.agents[id].pc.due <= w.now
    case _ => true
  }

  /** A possible step; if `timed`, one that keeps time. */
  ghost predicate Allowed(w: World, step: Step, timed: bool) {
    CanStep(w, step) && (timed ==> KeepsTime(w, step))
  }

  function WorldAt(w: World, steps: seq<Step>, k: nat): World
    requires k <= |steps|
  {
    if k == 0 then w else After(WorldAt(w, steps, k - 1), steps[k - 1])
  }

  /** Every step is possible where it is taken. */
  ghost predicate Path(w: World, steps: seq<Step>, timed: bool) {
    forall k {:trigger Allowed(WorldAt(w, steps, k), steps[k], timed)} | 0 <= k < |steps| ::
      Allowed(WorldAt(w, steps, k), steps[k], timed)
  }

  ghost predicate Behavior(w: World, steps: seq<Step>, timed: bool) {
    Init(w) && Path(w, steps, timed)
  }

  ghost predicate EndsIn(start: World, steps: seq<Step>, timed: bool, w: World) {
    Behavior(start, steps, timed) && WorldAt(start, steps, |steps|) == w
  }

  /** Some run leads here. */
  ghost predicate Reachable(w: World, timed: bool) {
    exists start, steps :: EndsIn(start, steps, timed, w)
  }

  // ---------------------------------------------------------------- building runs

  /** The lease length in the runs built here: the default of the agent's configuration. */
  const LEASE_MS := 30000

  lemma {:induction false} WorldAtPrefix(w: World, steps: seq<Step>, step: Step, k: nat)
    requires k <= |steps|
    ensures WorldAt(w, steps + [step], k) == WorldAt(w, steps, k)
    decreases k
  {
    if k > 0 {
      WorldAtPrefix(w, steps, step, k - 1);
    }
  }

  lemma StartReachable(w: World, timed: bool)
    requires Init(w)
    ensures Reachable(w, timed)
  {
    assert EndsIn(w, [], timed, w);
  }

  lemma PathExtends(w: World, steps: seq<Step>, step: Step, timed: bool)
    requires Path(w, steps, timed) && Allowed(WorldAt(w, steps, |steps|), step, timed)
    ensures Path(w, steps + [step], timed)
    ensures WorldAt(w, steps + [step], |steps| + 1) == After(WorldAt(w, steps, |steps|), step)
  {
    hide Allowed, After;
    var longer := steps + [step];
    WorldAtPrefix(w, steps, step, |steps|);
    forall k | 0 <= k < |longer| ensures Allowed(WorldAt(w, longer, k), longer[k], timed) {
      if k < |steps| {
        WorldAtPrefix(w, steps, step, k);
        assert Allowed(WorldAt(w, steps, k), steps[k], timed);
      }
    }
  }

  lemma StepReachable(w: World, step: Step, timed: bool)
    requires Reachable(w, timed) && Allowed(w, step, timed)
    ensures Reachable(After(w, step), timed)
  {
    var start, steps :| EndsIn(start, steps, timed, w);
    PathExtends(start, steps, step, timed);
    assert EndsIn(start, steps + [step], timed, After(w, step));
  }
}
