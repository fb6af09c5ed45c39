/**
 The entities that the server and the agents exchange and store: command rows, claim
 responses, results and journals. Identifiers stand for UUIDs and configured agent names;
 timestamps are Unix milliseconds. JSON texts are represented by the values they encode.
 */
module Commands {

  datatype Option<+T> = None | Some(value: T)

  datatype Result<+T, +E> = Ok(value: T) | Err(error: E)

  type CommandId = nat
  type LeaseId = nat
  type AgentId = nat

  datatype CommandType = DELAY | HTTP_GET_JSON

  datatype Status = PENDING | RUNNING | COMPLETED | FAILED

  datatype Payload = DelayPayload(ms: int) | HttpGetJsonPayload(url: string) {
    /** The command type; createCommand refuses a payload that does not fit its type. */
    function Type(): CommandType {
      if DelayPayload? then DELAY else HTTP_GET_JSON
    }
  }

  datatype HttpGetJsonResult = HttpGetJsonResult(
    status: int, body: Option<string>, truncated: bool, bytesReturned: int, error: Option<string>)

  datatype CommandResult =
    | DelayResult(ok: bool, tookMs: int)
    | HttpResult(http: HttpGetJsonResult)

  /** One row of the table `commands`; None stands for SQL NULL. */
  datatype Row = Row(
    id: CommandId,
    payload: Payload,
    status: Status,
    result: Option<CommandResult>,
    error: Option<string>,
    agentId: Option<AgentId>,
    leaseId: Option<LeaseId>,
    leaseExpiresAt: Option<int>,
    createdAt: int,
    startedAt: Option<int>,
    attempt: nat,
    scheduledEndAt: Option<int>)

  /** What a claim tells the agent. */
  datatype ClaimResponse = ClaimResponse(
    commandId: CommandId,
    payload: Payload,
    leaseId: LeaseId,
    leaseExpiresAt: int,
    startedAt: int,
    scheduledEndAt: Option<int>)

  datatype Stage = CLAIMED | IN_PROGRESS | RESULT_SAVED {
    function Rank(): nat {
      match this
      case CLAIMED => 0
      case IN_PROGRESS => 1
      case RESULT_SAVED => 2
    }
  }

  /** The journal an agent keeps on disk for the command it is working on. */
  datatype Journal = Journal(
    commandId: CommandId,
    leaseId: LeaseId,
    commandType: CommandType,
    startedAt: int,
    scheduledEndAt: Option<int>,
    httpSnapshot: Option<HttpGetJsonResult>,
    stage: Stage)

  /** What createClaimed puts on disk. */
  function ClaimedJournal(c: ClaimResponse): Journal {
    Journal(c.commandId, c.leaseId, c.payload.Type(), c.startedAt, c.scheduledEndAt, None, CLAIMED)
  }
}
