/**
 One agent process as a machine: a program counter that names the point the code has reached
 between two awaits or two disk writes, and the journal on disk. A crash is possible at every
 point, keeps the disk and loses the rest. The methods in module AgentProcess are proved to
 move only along these steps.
 */
module AgentMachine {
  import opened Commands

  datatype Pc =
    | Down
    | Booting                                      // about to load the journal
    | Idle                                         // in the polling loop
    | Claiming                                     // claim request sent
    | Claimed(claim: ClaimResponse)                // response received, nothing on disk yet
    | Starting(j: Journal, payload: Payload)       // executor about to run
    | Ready(j: Journal, payload: Payload)          // DELAY: about to set the timer
    | Waiting(j: Journal, target: int, due: int)   // DELAY: timer set, fires at `due`
    | Waited(j: Journal, target: int)              // DELAY: wait resolved
    | Fetching(j: Journal)                         // HTTP: about to send the request
    | AwaitingFetch(j: Journal)                    // HTTP: request sent
    | Fetched(j: Journal, http: HttpGetJsonResult) // HTTP: result in memory only
    | Reporting(j: Journal, result: CommandResult) // result on disk, report not sent
    | AwaitingAck(j: Journal, result: CommandResult)
    | Cleaning                                     // about to delete the journal

  datatype Agent = Agent(pc: Pc, disk: Option<Journal>)

  datatype Event =
    | Boot
    | Crash
    | LoadEmpty
    | LoadError                                    // the file cannot be read; treated as no journal
    | LoadJournal
    | SendClaim
    | NoClaim                                      // 204, an error status, or no reply
    | ReceiveClaim(claim: ClaimResponse)
    | SaveClaimed
    | SaveClaimedFails
    | StartWork                                    // executor entry; saves IN_PROGRESS where the code does
    | SetTimer
    | TimerFires
    | SendFetch
    | FetchReturns(http: HttpGetJsonResult)
    | SaveSnapshot
    | SaveResult
    | Abandon                                      // lease lost, failed save, or any other exception
    | SendComplete
    | Acknowledged                                 // 204
    | NotAcknowledged                              // 409, another status, or no reply
    | DeleteJournal
    | DeleteFails

  // ---------------------------------------------------------------- expressions of the code

  /** computeDelayResult: `scheduledEndAt` is tested for truth, so 0 counts as absent. */
  function ComputeDelayResult(j: Journal, now: int): CommandResult {
    DelayResult(true, if j.scheduledEndAt.Some? && j.scheduledEndAt.value != 0
                then j.scheduledEndAt.value - j.startedAt
                else now - j.startedAt)
  }

  /** The result recovery reports for a journal at RESULT_SAVED. */
  function SavedResult(j: Journal, now: int): CommandResult {
    if j.commandType == HTTP_GET_JSON && j.httpSnapshot.Some? then HttpResult(j.httpSnapshot.value)
    else ComputeDelayResult(j, now)
  }

  /** The DELAY executor's `journal.scheduledEndAt ?? journal.startedAt + payload.ms`. */
  function DelayTarget(j: Journal, payload: Payload): int {
    if j.scheduledEndAt.Some? then j.scheduledEndAt.value
    else if payload.DelayPayload? then j.startedAt + payload.ms
    else j.startedAt
  }

  const MAX_TIMER_MS := 2147483647

  /** The range of Date, from ECMA-262 section 21.4.1.1. Outside it toISOString throws, which the
      DELAY executor calls on the scheduled end before it waits. */
  const MAX_DATE_MS := 8640000000000000

  predicate HasDate(t: int) {
    -MAX_DATE_MS <= t <= MAX_DATE_MS
  }

  /** Node.js setTimeout replaces a delay above 2^31 - 1 by 1. */
  function TimerDelay(ms: int): int {
    if ms > MAX_TIMER_MS then 1 else ms
  }

  /** The DELAY executor saves IN_PROGRESS only from CLAIMED, the HTTP executor always. */
  function StartedJournal(j: Journal): Journal {
    if j.commandType == DELAY && j.stage != CLAIMED then j else j.(stage := IN_PROGRESS)
  }

  // ---------------------------------------------------------------- steps

  predicate Executing(pc: Pc) {
    pc.Starting? || pc.Ready? || pc.Waiting? || pc.Waited? || pc.Fetching? || pc.AwaitingFetch? || pc.Fetched?
  }

  predicate Enabled(a: Agent, e: Event) {
    match e
    case Boot => a.pc.Down?
    case Crash => !a.pc.Down?
    case LoadEmpty => a.pc.Booting? && a.disk.None?
    case LoadError => a.pc.Booting?
    case LoadJournal => a.pc.Booting? && a.disk.Some?
    case SendClaim => a.pc.Idle?
    case NoClaim => a.pc.Claiming?
    case ReceiveClaim(_) => a.pc.Claiming?
    case SaveClaimed => a.pc.Claimed?
    case SaveClaimedFails => a.pc.Claimed?
    case StartWork => a.pc.Starting? && (a.pc.j.commandType == HTTP_GET_JSON ==> a.pc.j.httpSnapshot.None?)
    case SetTimer => a.pc.Ready? && HasDate(DelayTarget(a.pc.j, a.pc.payload))
    case TimerFires => a.pc.Waiting?
    case SendFetch => a.pc.Fetching?
    case FetchReturns(_) => a.pc.AwaitingFetch?
    case SaveSnapshot => a.pc.Fetched?
    case SaveResult => a.pc.Waited?
    case Abandon => Executing(a.pc)
    case SendComplete => a.pc.Reporting?
    case Acknowledged => a.pc.AwaitingAck?
    case NotAcknowledged => a.pc.AwaitingAck?
    case DeleteJournal => a.pc.Cleaning?
    case DeleteFails => a.pc.Cleaning?
  }

  /** Where recoverFromJournal goes once it has a journal. */
  function Recover(j: Journal, now: int): Pc {
    if j.stage == RESULT_SAVED then Reporting(j, SavedResult(j, now))
    else if j.commandType == DELAY && j.scheduledEndAt.Some?
    then Starting(j, DelayPayload(j.scheduledEndAt.value - j.startedAt))
    else Cleaning
  }

  function Next(a: Agent, e: Event, now: int): Agent
    requires Enabled(a, e)
  {
    match e
    case Boot => a.(pc := Booting)
    case Crash => a.(pc := Down)
    case LoadEmpty => a.(pc := Idle)
    case LoadError => a.(pc := Idle)
    case LoadJournal => a.(pc := Recover(a.disk.value, now))
    case SendClaim => a.(pc := Claiming)
    case NoClaim => a.(pc := Idle)
    case ReceiveClaim(c) => a.(pc := Claimed(c))
    case SaveClaimed =>
      var j := ClaimedJournal(a.pc.claim);
      Agent(Starting(j, a.pc.claim.payload), Some(j))
    case SaveClaimedFails => a.(pc := Idle)
    case StartWork =>
      var j := StartedJournal(a.pc.j);
      Agent(if j.commandType == DELAY then Ready(j, a.pc.payload) else Fetching(j),
            if j == a.pc.j then a.disk else Some(j))
    case SetTimer =>
      var target := DelayTarget(a.pc.j, a.pc.payload);
      a.(pc := if target - now <= 0 then Waited(a.pc.j, target)
      else Waiting(a.pc.j, target, now + TimerDelay(target - now)))
    case TimerFires => a.(pc := Waited(a.pc.j, a.pc.target))
    case SendFetch => a.(pc := AwaitingFetch(a.pc.j))
    case FetchReturns(http) => a.(pc := Fetched(a.pc.j, http))
    case SaveSnapshot =>
      var j := a.pc.j.(httpSnapshot := Some(a.pc.http), stage := RESULT_SAVED);
      Agent(Reporting(j, HttpResult(a.pc.http)), Some(j))
    case SaveResult =>
      var j := a.pc.j.(stage := RESULT_SAVED);
      Agent(Reporting(j, DelayResult(true, a.pc.target - j.startedAt)), Some(j))
    case Abandon => a.(pc := Cleaning)
    case SendComplete => a.(pc := AwaitingAck(a.pc.j, a.pc.result))
    case Acknowledged => a.(pc := Cleaning)
    case NotAcknowledged => a.(pc := Cleaning)
    case DeleteJournal => Agent(Idle, None)
    case DeleteFails => a.(pc := Idle)
  }

  /** The lease the process is working under. */
  function LeaseOf(pc: Pc): Option<LeaseId> {
    match pc
    case Claimed(c) => Some(c.leaseId)
    case Starting(j, _) => Some(j.leaseId)
    case Ready(j, _) => Some(j.leaseId)
    case Waiting(j, _, _) => Some(j.leaseId)
    case Waited(j, _) => Some(j.leaseId)
    case Fetching(j) => Some(j.leaseId)
    case AwaitingFetch(j) => Some(j.leaseId)
    case Fetched(j, _) => Some(j.leaseId)
    case Reporting(j, _) => Some(j.leaseId)
    case AwaitingAck(j, _) => Some(j.leaseId)
    case _ => None
  }

  predicate Holds(a: Agent, l: LeaseId) {
    LeaseOf(a.pc) == Some(l) || (a.disk.Some? && a.disk.value.leaseId == l)
  }

  /** The timer is set for the target itself if a timer can wait that long, and for 1 ms otherwise; a
      target already passed needs none. */
  lemma TimerIsSet(a: Agent, now: int)
    requires Enabled(a, SetTimer) && a.pc.j.scheduledEndAt.Some?
    ensures var target, pc := a.pc.j.scheduledEndAt.value, Next(a, SetTimer, now).pc;
            if target <= now then pc == Waited(a.pc.j, target)
            else pc == Waiting(a.pc.j, target, if target - now <= 2147483647 then target else now + 1)
  {}

  /** The replayed DELAY result is the scheduled duration whatever the clock reads exactly when the
      scheduled end is not the instant 0; otherwise only a clock at 0 gives it. */
  lemma ReplayedDelay(j: Journal)
    requires j.scheduledEndAt.Some?
    ensures var scheduled := DelayResult(true, j.scheduledEndAt.value - j.startedAt);
            && ((forall now :: ComputeDelayResult(j, now) == scheduled) <==> j.scheduledEndAt.value != 0)
            && forall now :: ComputeDelayResult(j, now) == scheduled <==> j.scheduledEndAt.value != 0 || now == 0
  {
    if j.scheduledEndAt.value == 0 {
      assert ComputeDelayResult(j, 1) != DelayResult(true, -j.startedAt);
    }
  }
}
