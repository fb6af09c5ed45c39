/**
 The agent's HTTP client: what it asks for, and what it makes of the answer.
 */
module ServerClient {
  import opened Commands
  import opened Server

  const HEARTBEAT_TO_LEASE_MULTIPLIER := 3

  datatype Config = Config(agentId: AgentId, maxLeaseMs: int, heartbeatIntervalMs: int)

  datatype Request =
    | ClaimRequest(agentId: AgentId, maxLeaseMs: int)
    | HeartbeatRequest(commandId: CommandId, agentId: AgentId, leaseId: LeaseId, extendMs: int)
    | CompleteRequest(commandId: CommandId, agentId: AgentId, leaseId: LeaseId, result: CommandResult)
    | FailRequest(commandId: CommandId, agentId: AgentId, leaseId: LeaseId, error: string,
                  partial: Option<CommandResult>)

  function ClaimCall(config: Config): Request {
    ClaimRequest(config.agentId, config.maxLeaseMs)
  }

  function HeartbeatCall(config: Config, commandId: CommandId, leaseId: LeaseId): Request {
    HeartbeatRequest(commandId, config.agentId, leaseId, config.heartbeatIntervalMs * HEARTBEAT_TO_LEASE_MULTIPLIER)
  }

  function CompleteCall(config: Config, commandId: CommandId, leaseId: LeaseId, result: CommandResult): Request {
    CompleteRequest(commandId, config.agentId, leaseId, result)
  }

  function FailCall(config: Config, commandId: CommandId, leaseId: LeaseId, error: string,
                    partial: Option<CommandResult>): Request {
    FailRequest(commandId, config.agentId, leaseId, error, partial)
  }

  /** The requests this client makes. */
  predicate CallOf(config: Config, r: Request) {
    match r
    case ClaimRequest(_, _) => r == ClaimCall(config)
    case HeartbeatRequest(id, _, l, _) => r == HeartbeatCall(config, id, l)
    case CompleteRequest(id, _, l, result) => r == CompleteCall(config, id, l, result)
    case FailRequest(id, _, l, error, partial) => r == FailCall(config, id, l, error, partial)
  }

  /** The operation a report becomes when it reaches the server at `now`. */
  function Arriving(r: Request, now: int): Op
    requires !r.ClaimRequest?
  {
    match r
    case HeartbeatRequest(id, a, l, extendMs) => Heartbeat(id, a, l, extendMs, now)
    case CompleteRequest(id, a, l, result) => Complete(id, a, l, result)
    case FailRequest(id, a, l, error, partial) => Fail(id, a, l, error, partial)
  }

  /** Each call reaches the server as the operation it is meant to be, in the name of this agent;
      a heartbeat asks for three intervals. */
  lemma CallsArrive(config: Config, id: CommandId, l: LeaseId, result: CommandResult, error: string,
                    partial: Option<CommandResult>, now: int)
    ensures ClaimCall(config) == ClaimRequest(config.agentId, config.maxLeaseMs)
    ensures Arriving(HeartbeatCall(config, id, l), now) ==
            Heartbeat(id, config.agentId, l, 3 * config.heartbeatIntervalMs, now)
    ensures Arriving(CompleteCall(config, id, l, result), now) == Complete(id, config.agentId, l, result)
    ensures Arriving(FailCall(config, id, l, error, partial), now) == Fail(id, config.agentId, l, error, partial)
  {}

  /** What comes back: nothing, or a status code. */
  datatype Reply = NoReply | Status(code: int)

  const NO_CONTENT := 204
  const CONFLICT := 409

  /** The route answers 204, or the error handler 409 for a lease conflict. */
  function StatusOf(s: State, op: Op): int
    requires IsReport(op)
  {
    if Accepted(s, op) then NO_CONTENT else CONFLICT
  }

  /** heartbeat, complete and fail turn 204 into true and everything else into false. */
  predicate Success(reply: Reply) {
    reply == Status(NO_CONTENT)
  }

  /** The reply to a report: the service's own answer, any error status of the layers around it, or
      none at all. Only the route answers 204. */
  predicate MayReply(s: State, op: Op, reply: Reply)
    requires IsReport(op)
  {
    reply == NoReply || reply == Status(StatusOf(s, op)) || (reply.Status? && reply.code != NO_CONTENT)
  }

  /** True means that the report was accepted, under a live lease of this very agent. False says
      nothing about the server once the reply is lost. */
  lemma TrueMeansAccepted(s: State, config: Config, r: Request, now: int, reply: Reply)
    requires Inv(s) && CallOf(config, r) && !r.ClaimRequest? && MayReply(s, Arriving(r, now), reply)
    ensures Success(reply) ==>
              && Accepted(s, Arriving(r, now)) && Live(s, r.leaseId) && s.issued[r.leaseId].agentId == config.agentId
    ensures reply == Status(StatusOf(s, Arriving(r, now))) ==> (Success(reply) <==> Accepted(s, Arriving(r, now)))
    ensures MayReply(s, Arriving(r, now), NoReply) && !Success(NoReply)
  {
    AcceptedIffLive(s, Arriving(r, now));
  }
}
