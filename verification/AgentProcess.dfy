/**
 The agent as the program it is: journal manager, heartbeat manager, executors, recovery and
 the polling loop. `m` is the machine state its real actions amount to and `trace` the events
 so far; every method is proved to move `m` only along steps of module AgentMachine, and to
 send exactly the reports and outbound requests those steps stand for. A crash may cut the
 trace anywhere (CrashAnywhere), and such traces are what an agent does in the runs of the whole
 system (module ProcessRuns), so the whole-system results cover this program.
 */
module AgentProcess {
  import opened Commands
  import opened AgentMachine
  import opened JournalFile
  import opened DelayWait
  import Heartbeats
  import M = AgentMachine
  import QueueSystem

  /** An event and what the clock read. */
  datatype Entry = Entry(event: M.Event, now: int)

  function MachineAt(start: Agent, trace: seq<Entry>, k: nat): Agent
    requires k <= |trace|
  {
    if k == 0 then start
    else
      var a := MachineAt(start, trace, k - 1);
      if M.Enabled(a, trace[k - 1].event) then M.Next(a, trace[k - 1].event, trace[k - 1].now) else a
  }

  ghost predicate LegalTrace(start: Agent, trace: seq<Entry>) {
    forall k {:trigger M.Enabled(MachineAt(start, trace, k), trace[k].event)} | 0 <= k < |trace| ::
      M.Enabled(MachineAt(start, trace, k), trace[k].event)
  }

  lemma {:induction false} MachineAtPrefix(start: Agent, shorter: seq<Entry>, longer: seq<Entry>, k: nat)
    requires k <= |shorter| <= |longer| && longer[..|shorter|] == shorter
    ensures MachineAt(start, longer, k) == MachineAt(start, shorter, k)
    decreases k
  {
    if k > 0 {
      MachineAtPrefix(start, shorter, longer, k - 1);
      assert longer[k - 1] == longer[..|shorter|][k - 1];
    }
  }

  /** What one event sends: a completion report, or an outbound request for a lease. */
  function SentBy(agentId: AgentId, a: Agent, e: M.Event): seq<QueueSystem.Report> {
    if e.SendComplete? && a.pc.Reporting?
    then [QueueSystem.Report(a.pc.j.commandId, agentId, a.pc.j.leaseId, a.pc.result)] else []
  }

  function RequestedBy(a: Agent, e: M.Event): seq<LeaseId> {
    if e.SendFetch? && a.pc.Fetching? then [a.pc.j.leaseId] else []
  }

  function SentIn(agentId: AgentId, start: Agent, trace: seq<Entry>, k: nat): seq<QueueSystem.Report>
    requires k <= |trace|
  {
    if k == 0 then []
    else SentIn(agentId, start, trace, k - 1) + SentBy(agentId, MachineAt(start, trace, k - 1), trace[k - 1].event)
  }

  function RequestedIn(start: Agent, trace: seq<Entry>, k: nat): seq<LeaseId>
    requires k <= |trace|
  {
    if k == 0 then []
    else RequestedIn(start, trace, k - 1) + RequestedBy(MachineAt(start, trace, k - 1), trace[k - 1].event)
  }

  /** Claim requests made. */
  function AskedIn(trace: seq<Entry>, k: nat): nat
    requires k <= |trace|
  {
    if k == 0 then 0 else AskedIn(trace, k - 1) + if trace[k - 1].event.SendClaim? then 1 else 0
  }

  lemma {:induction false} EffectsPrefix(agentId: AgentId, start: Agent, trace: seq<Entry>, e: Entry, k: nat)
    requires k <= |trace|
    ensures SentIn(agentId, start, trace + [e], k) == SentIn(agentId, start, trace, k)
    ensures RequestedIn(start, trace + [e], k) == RequestedIn(start, trace, k)
    ensures AskedIn(trace + [e], k) == AskedIn(trace, k)
    decreases k
  {
    if k > 0 {
      EffectsPrefix(agentId, start, trace, e, k - 1);
      MachineAtPrefix(start, trace, trace + [e], k - 1);
    }
  }

  lemma EffectsExtend(agentId: AgentId, start: Agent, trace: seq<Entry>, e: Entry)
    ensures var m, n := MachineAt(start, trace, |trace|), |trace|;
            && SentIn(agentId, start, trace + [e], n + 1) ==
               SentIn(agentId, start, trace, n) + SentBy(agentId, m, e.event)
            && RequestedIn(start, trace + [e], n + 1) == RequestedIn(start, trace, n) + RequestedBy(m, e.event)
            && AskedIn(trace + [e], n + 1) == AskedIn(trace, n) + if e.event.SendClaim? then 1 else 0
  {
    EffectsPrefix(agentId, start, trace, e, |trace|);
    MachineAtPrefix(start, trace, trace + [e], |trace|);
  }

  lemma TraceExtends(start: Agent, trace: seq<Entry>, e: Entry)
    requires LegalTrace(start, trace) && M.Enabled(MachineAt(start, trace, |trace|), e.event)
    ensures LegalTrace(start, trace + [e])
    ensures MachineAt(start, trace + [e], |trace| + 1) == M.Next(MachineAt(start, trace, |trace|), e.event, e.now)
  {
    forall k | 0 <= k < |trace| + 1 ensures M.Enabled(MachineAt(start, trace + [e], k), (trace + [e])[k].event) {
      MachineAtPrefix(start, trace, trace + [e], k);
    }
    MachineAtPrefix(start, trace, trace + [e], |trace|);
  }

  /** Wherever the process is killed, what it did until then followed by a crash is again a run of
      the machine, and only the disk of that moment is left. */
  lemma CrashAnywhere(start: Agent, trace: seq<Entry>, k: nat, now: int)
    requires LegalTrace(start, trace) && k <= |trace| && !MachineAt(start, trace, k).pc.Down?
    ensures LegalTrace(start, trace[..k] + [Entry(Crash, now)])
    ensures MachineAt(start, trace[..k] + [Entry(Crash, now)], k + 1) == Agent(Down, MachineAt(start, trace, k).disk)
  {
    var cut := trace[..k];
    forall i | 0 <= i < k ensures M.Enabled(MachineAt(start, cut, i), cut[i].event) {
      MachineAtPrefix(start, cut, trace, i);
      assert M.Enabled(MachineAt(start, trace, i), trace[i].event);
    }
    MachineAtPrefix(start, cut, trace, k);
    TraceExtends(start, cut, Entry(Crash, now));
  }

  /** An agent's step in the whole system is the machine's step, and puts on the network exactly
      what the program sends for that event. */
  lemma StepInSystem(w: QueueSystem.World, id: AgentId, e: M.Event)
    requires id in w.agents && M.Enabled(w.agents[id], e)
    ensures var w' := QueueSystem.AfterAct(w, id, e);
            && w'.agents == w.agents[id := M.Next(w.agents[id], e, w.now)]
            && w'.reports == w.reports + (set r | r in SentBy(id, w.agents[id], e))
            && w'.fetches == w.fetches + RequestedBy(w.agents[id], e)
            && w'.server == w.server
  {}

  // ---------------------------------------------------------------- what a process should do

  /** What happens around one command: the clock when its wait starts, what checkLeaseValid answers
      over time and whether it goes before a timer due at the same instant, what the outbound request
      returns, and which file operations work. */
  datatype Surroundings = Surroundings(
    now: int,
    leaseValid: int -> bool,
    checkFirst: bool,
    http: HttpGetJsonResult,
    claimSave: SaveIo,
    startSave: SaveIo,
    resultSave: SaveIo,
    acknowledged: bool,
    unlinks: bool)

  /** A wait for this end is possible at all and is not cut short by the loss of the lease. */
  ghost predicate WaitSucceeds(end: int, env: Surroundings) {
    -8640000000000000 <= end <= 8640000000000000 && Survives(env.now, end, env.leaseValid, env.checkFirst)
  }

  function EndOf(c: ClaimResponse): int
    requires c.payload.DelayPayload?
  {
    if c.scheduledEndAt.Some? then c.scheduledEndAt.value else c.startedAt + c.payload.ms
  }

  /** A new claim, its journal saved, is executed and reported. */
  ghost predicate Succeeds(c: ClaimResponse, executors: set<CommandType>, env: Surroundings) {
    && env.startSave.Works() && env.resultSave.Works()
    && if c.payload.DelayPayload? then DELAY in executors && WaitSucceeds(EndOf(c), env) else HTTP_GET_JSON in executors
  }

  function ResultOf(c: ClaimResponse, env: Surroundings): CommandResult {
    if c.payload.DelayPayload? then DelayResult(true, EndOf(c) - c.startedAt) else HttpResult(env.http)
  }

  ghost function ClaimReports(agentId: AgentId, c: ClaimResponse, executors: set<CommandType>, env: Surroundings)
    : seq<QueueSystem.Report>
  {
    if Succeeds(c, executors, env)
    then [QueueSystem.Report(c.commandId, agentId, c.leaseId, ResultOf(c, env))] else []
  }

  /** The outbound request is made as soon as IN_PROGRESS is saved, whatever becomes of its result. */
  function ClaimRequests(c: ClaimResponse, executors: set<CommandType>, env: Surroundings): seq<LeaseId> {
    if c.payload.HttpGetJsonPayload? && HTTP_GET_JSON in executors && env.startSave.Works() then [c.leaseId] else []
  }

  /** Recovery reports every saved result, and every DELAY it can finish. */
  ghost predicate Resumable(j: Journal, executors: set<CommandType>, env: Surroundings) {
    || j.stage == RESULT_SAVED
    || (&& j.commandType == DELAY && j.scheduledEndAt.Some? && DELAY in executors
        && (j.stage == CLAIMED ==> env.startSave.Works()) && env.resultSave.Works()
        && WaitSucceeds(j.scheduledEndAt.value, env))
  }

  /** The snapshot, or the duration; a saved result whose scheduled end is missing, or 0, takes the
      clock at recovery for its end. */
  function RecoveredResult(j: Journal, loadedAt: int): CommandResult {
    if j.stage == RESULT_SAVED && j.commandType == HTTP_GET_JSON && j.httpSnapshot.Some?
    then HttpResult(j.httpSnapshot.value)
    else if j.scheduledEndAt.Some? && (j.stage != RESULT_SAVED || j.scheduledEndAt.value != 0)
    then DelayResult(true, j.scheduledEndAt.value - j.startedAt)
    else DelayResult(true, loadedAt - j.startedAt)
  }

  ghost function RecoveryReports(agentId: AgentId, disk: Option<Journal>, executors: set<CommandType>, loadedAt: int,
                                 env: Surroundings): seq<QueueSystem.Report>
  {
    if disk.Some? && Resumable(disk.value, executors, env)
    then [QueueSystem.Report(disk.value.commandId, agentId, disk.value.leaseId, RecoveredResult(disk.value, loadedAt))]
    else []
  }

  /** One round of the polling loop: the answer to the claim request, and the surroundings. */
  datatype Round = Round(claimed: Option<ClaimResponse>, env: Surroundings)
  {
    predicate Begins() {
      claimed.Some? && env.claimSave.Works()
    }
  }

  ghost function RoundReports(agentId: AgentId, executors: set<CommandType>, rounds: seq<Round>, k: nat)
    : seq<QueueSystem.Report>
    requires k <= |rounds|
  {
    if k == 0 then []
    else RoundReports(agentId, executors, rounds, k - 1) +
         if rounds[k - 1].Begins()
         then ClaimReports(agentId, rounds[k - 1].claimed.value, executors, rounds[k - 1].env) else []
  }

  ghost function RoundRequests(executors: set<CommandType>, rounds: seq<Round>, k: nat): seq<LeaseId>
    requires k <= |rounds|
  {
    if k == 0 then []
    else RoundRequests(executors, rounds, k - 1) +
         if rounds[k - 1].Begins()
         then ClaimRequests(rounds[k - 1].claimed.value, executors, rounds[k - 1].env) else []
  }

  /** The journal of this lease is still on disk. */
  predicate HoldsLease(disk: Option<Journal>, leaseId: LeaseId) {
    disk.Some? && disk.value.leaseId == leaseId
  }

  // ---------------------------------------------------------------- the process

  class AgentProcess {
    const agentId: AgentId
    const journals: JournalManager
    const heartbeats: Heartbeats.HeartbeatManager
    const executors: set<CommandType>
    /** Completion reports, outbound fetches and claim requests this process has issued. */
    var sent: seq<QueueSystem.Report>
    var requested: seq<LeaseId>
    var asked: nat
    /** For each report, whether heartbeats were running as it left. */
    var beating: seq<bool>
    ghost var start: Agent
    ghost var m: Agent
    ghost var trace: seq<Entry>

    ghost predicate Valid()
      reads this, journals
    {
      journals.Valid() && journals.Disk() == m.disk && Consistent()
    }

    /** The trace is one of the machine's, it has led to `m`, and the process has sent exactly what
        its events send. */
    ghost predicate Consistent()
      reads this`start, this`m, this`trace, this`sent, this`requested, this`asked
    {
      && LegalTrace(start, trace) && MachineAt(start, trace, |trace|) == m
      && sent == SentIn(agentId, start, trace, |trace|) && requested == RequestedIn(start, trace, |trace|)
      && asked == AskedIn(trace, |trace|)
    }

    constructor (agentId: AgentId, journals: JournalManager, heartbeats: Heartbeats.HeartbeatManager,
                 executors: set<CommandType>)
      requires journals.Valid()
      ensures Valid() && m == Agent(Booting, journals.Disk())
      ensures this.agentId == agentId && this.journals == journals && this.heartbeats == heartbeats
      ensures this.executors == executors && sent == [] && requested == [] && asked == 0 && beating == []
    {
      this.agentId, this.journals, this.heartbeats, this.executors := agentId, journals, heartbeats, executors;
      sent, requested, asked, beating := [], [], 0, [];
      start := Agent(Booting, journals.Disk());
      m := Agent(Booting, journals.Disk());
      trace := [];
    }

    ghost method Append(e: M.Event, now: int)
      requires LegalTrace(start, trace) && MachineAt(start, trace, |trace|) == m && M.Enabled(m, e)
      requires sent == SentIn(agentId, start, trace, |trace|) + SentBy(agentId, m, e)
      requires requested == RequestedIn(start, trace, |trace|) + RequestedBy(m, e)
      requires asked == AskedIn(trace, |trace|) + if e.SendClaim? then 1 else 0
      modifies this`m, this`trace
      ensures Consistent() && m == M.Next(old(m), e, now)
    {
      TraceExtends(start, trace, Entry(e, now));
      EffectsExtend(agentId, start, trace, Entry(e, now));
      m, trace := M.Next(m, e, now), trace + [Entry(e, now)];
    }

    /** Records the event that what has just been done to the disk amounts to. */
    ghost method Record(e: M.Event, now: int)
      requires Consistent() && M.Enabled(m, e) && !e.SendComplete? && !e.SendFetch? && !e.SendClaim?
      requires journals.Valid() && journals.Disk() == M.Next(m, e, now).disk
      modifies this`m, this`trace
      ensures Valid() && m == M.Next(old(m), e, now)
    {
      Append(e, now);
    }

    method SendReport(report: QueueSystem.Report)
      requires Valid() && m.pc.Reporting?
      requires report == QueueSystem.Report(m.pc.j.commandId, agentId, m.pc.j.leaseId, m.pc.result)
      modifies this`m, this`trace, this`sent, this`beating
      ensures Valid() && m == M.Next(old(m), SendComplete, 0) && sent == old(sent) + [report]
      ensures beating == old(beating) + [heartbeats.timerId]
    {
      sent := sent + [report];
      beating := beating + [heartbeats.timerId];
      Append(SendComplete, 0);
    }

    method SendRequest(leaseId: LeaseId)
      requires Valid() && m.pc.Fetching? && m.pc.j.leaseId == leaseId
      modifies this`m, this`trace, this`requested
      ensures Valid() && m == M.Next(old(m), SendFetch, 0) && requested == old(requested) + [leaseId]
    {
      requested := requested + [leaseId];
      Append(SendFetch, 0);
    }

    method SendClaimRequest()
      requires Valid() && m.pc.Idle?
      modifies this`m, this`trace, this`asked
      ensures Valid() && m == M.Next(old(m), SendClaim, 0) && asked == old(asked) + 1
    {
      asked := asked + 1;
      Append(SendClaim, 0);
    }

    method DeleteJournal(unlinks: bool)
      requires Valid() && m.pc.Cleaning?
      modifies this`m, this`trace, journals
      ensures Valid() && m.pc.Idle? && journals.Disk() == if unlinks then None else old(journals.Disk())
    {
      hide Consistent;
      journals.Delete(unlinks);
      if unlinks {
        Record(M.Event.DeleteJournal, 0);
      } else {
        Record(DeleteFails, 0);
      }
    }

    /** Sends the report once and deletes the journal whatever the answer. */
    method ReportCompletion(commandId: CommandId, leaseId: LeaseId, result: CommandResult, env: Surroundings)
      requires Valid() && m.pc.Reporting?
      requires m.pc.j.commandId == commandId && m.pc.j.leaseId == leaseId && m.pc.result == result
      modifies this`m, this`trace, this`sent, this`beating, journals
      ensures Valid() && m.pc.Idle? && journals.Disk() == if env.unlinks then None else old(journals.Disk())
      ensures sent == old(sent) + [QueueSystem.Report(commandId, agentId, leaseId, result)]
      ensures beating == old(beating) + [heartbeats.timerId]
    {
      hide Consistent;
      SendReport(QueueSystem.Report(commandId, agentId, leaseId, result));
      if env.acknowledged {
        Record(Acknowledged, 0);
      } else {
        Record(NotAcknowledged, 0);
      }
      DeleteJournal(env.unlinks);
    }

    /** An exception inside the executor or a failed save: the journal is dropped unreported. */
    method GiveUp(env: Surroundings)
      requires Valid() && Executing(m.pc)
      modifies this`m, this`trace, journals
      ensures Valid() && m.pc.Idle? && journals.Disk() == if env.unlinks then None else old(journals.Disk())
    {
      hide Consistent;
      Record(Abandon, 0);
      DeleteJournal(env.unlinks);
    }

    /** The wait inside the DELAY executor; false stands for its promise being rejected. */
    method Wait(target: int, env: Surroundings) returns (resolved: bool)
      requires Valid() && m.pc.Ready? && target == DelayTarget(m.pc.j, m.pc.payload) && HasDate(target)
      modifies this`m, this`trace
      ensures Valid() && m.disk == old(m.disk) && Executing(m.pc)
      ensures resolved <==> Survives(env.now, target, env.leaseValid, env.checkFirst)
      ensures resolved ==> m.pc == Waited(old(m.pc).j, target)
    {
      hide Consistent, Survives;
      var waiter := new Waiter();
      var outcome := waiter.WaitUntil(target, env.now, env.leaseValid, env.checkFirst);
      Record(SetTimer, env.now);
      if outcome.Rejected? {
        return false;
      }
      if m.pc.Waiting? {
        Record(TimerFires, outcome.at);
      }
      resolved := true;
    }

    /** DelayExecutor.execute. None stands for a thrown error, which leaves the machine inside the
        executor; an end that is no Date always throws, after the stage was saved and before
        anything is waited for. */
    method ExecuteDelay(j: Journal, payload: Payload, env: Surroundings)
      returns (r: Option<CommandResult>, updated: Journal)
      requires Valid() && m.pc == Starting(j, payload) && j.commandType == DELAY && m.disk == Some(j)
      modifies this`m, this`trace, journals
      ensures Valid() && Executing(m.pc)
      ensures var end := if j.scheduledEndAt.Some? then j.scheduledEndAt.value
                         else if payload.DelayPayload? then j.startedAt + payload.ms else j.startedAt;
              && (r.Some? <==> (j.stage == CLAIMED ==> env.startSave.Works()) && WaitSucceeds(end, env))
              && (r.Some? ==> r.value == DelayResult(true, end - j.startedAt) && m.pc == Waited(updated, end))
      ensures r.Some? ==>
                m.disk == Some(updated) && updated == j.(stage := if j.stage == CLAIMED then IN_PROGRESS else j.stage)
      ensures m.disk.Some? && m.disk.value.leaseId == j.leaseId
    {
      hide Consistent, Survives;
      updated := j;
      var scheduledEndAt := if j.scheduledEndAt.Some? then j.scheduledEndAt.value
      else if payload.DelayPayload? then j.startedAt + payload.ms else j.startedAt;
      if j.stage == CLAIMED {
        var ok;
        updated, ok := journals.UpdateStage(j, IN_PROGRESS, env.startSave);
        if !ok {
          return None, updated;
        }
      }
      Record(StartWork, 0);
      if !HasDate(scheduledEndAt) {
        return None, updated;  // RangeError from toISOString
      }
      var resolved := Wait(scheduledEndAt, env);
      r := if resolved then Some(DelayResult(true, scheduledEndAt - updated.startedAt)) else None;
    }

    /** HttpGetJsonExecutor.execute: a saved snapshot is returned without a request; otherwise the
        stage is saved, one request is made, and its result is saved before it is returned. */
    method ExecuteHttp(j: Journal, env: Surroundings) returns (r: Option<HttpGetJsonResult>, updated: Journal)
      requires Valid() && m.pc.Starting? && m.pc.j == j && j.commandType == HTTP_GET_JSON && m.disk == Some(j)
      modifies this`m, this`trace, this`requested, journals
      ensures Valid()
      ensures j.httpSnapshot.Some? ==> r == j.httpSnapshot && updated == j && m == old(m) && requested == old(requested)
      ensures j.httpSnapshot.None? ==>
                && r == (if env.startSave.Works() && env.resultSave.Works() then Some(env.http) else None)
                && requested == old(requested) + if env.startSave.Works() then [j.leaseId] else []
      ensures j.httpSnapshot.None? && r.Some? ==>
                && updated == j.(stage := RESULT_SAVED, httpSnapshot := r)
                && m == Agent(Reporting(updated, HttpResult(r.value)), Some(updated))
      ensures r == None ==> Executing(m.pc)
      ensures m.disk.Some? && m.disk.value.leaseId == j.leaseId
    {
      hide Consistent;
      updated := j;
      if j.httpSnapshot.Some? {
        return j.httpSnapshot, j;
      }
      var ok;
      updated, ok := journals.UpdateStage(j, IN_PROGRESS, env.startSave);
      if !ok {
        return None, updated;
      }
      Record(StartWork, 0);
      SendRequest(j.leaseId);
      var result := env.http;
      Record(FetchReturns(result), 0);
      updated, ok := journals.UpdateHttpSnapshot(updated, result, env.resultSave);
      if !ok {
        return None, updated;
      }
      Record(SaveSnapshot, 0);
      r := Some(result);
    }

    /** A finished DELAY: the stage is saved before anything is reported. */
    method SaveDelayResult(j: Journal, result: CommandResult, io: SaveIo) returns (saved: Journal, ok: bool)
      requires Valid() && m.pc.Waited? && m.pc.j == j && result == DelayResult(true, m.pc.target - j.startedAt)
      modifies this`m, this`trace, journals
      ensures Valid() && saved == j.(stage := RESULT_SAVED) && (ok <==> io.Works())
      ensures if ok then m == Agent(Reporting(saved, result), Some(saved)) else Executing(m.pc) && m == old(m)
    {
      hide Consistent;
      saved, ok := journals.UpdateStage(j, RESULT_SAVED, io);
      if ok {
        Record(SaveResult, 0);
      }
    }

    /** Resuming a DELAY: it is reported exactly when the wait and the saves succeed. */
    method ResumeDelay(j: Journal, env: Surroundings)
      requires Valid() && j.commandType == DELAY && j.scheduledEndAt.Some? && m.disk == Some(j)
      requires m.pc == Starting(j, DelayPayload(j.scheduledEndAt.value - j.startedAt)) && j.stage != RESULT_SAVED
      modifies this`m, this`trace, this`sent, this`beating, journals
      ensures Valid() && m.pc.Idle? && (if env.unlinks then m.disk == None else HoldsLease(m.disk, j.leaseId))
      ensures sent == old(sent) + RecoveryReports(agentId, Some(j), executors, 0, env)
      ensures beating == old(beating) + if sent == old(sent) then [] else [heartbeats.timerId]
    {
      hide Consistent, Survives;
      if DELAY !in executors {
        GiveUp(env);
        return;
      }
      var payload := DelayPayload(j.scheduledEndAt.value - j.startedAt);
      var result, updated := ExecuteDelay(j, payload, env);
      if result == None {
        GiveUp(env);
        return;
      }
      var saved, ok := SaveDelayResult(updated, result.value, env.resultSave);
      if ok {
        ReportCompletion(saved.commandId, saved.leaseId, result.value, env);
      } else {
        GiveUp(env);
      }
    }

    /** The part of recoverFromJournal after a journal was found, with its heartbeats running. */
    method Resume(j: Journal, loadedAt: int, env: Surroundings)
      requires Valid() && m.pc.Booting? && m.disk == Some(j)
      requires heartbeats.State() == Heartbeats.Manager(true, Some(Heartbeats.Target(j.commandId, j.leaseId)), true)
      modifies this`m, this`trace, this`sent, this`beating, journals
      ensures Valid() && m.pc.Idle? && (if env.unlinks then m.disk == None else HoldsLease(m.disk, j.leaseId))
      ensures sent == old(sent) + RecoveryReports(agentId, Some(j), executors, loadedAt, env)
      ensures beating == old(beating) + if sent == old(sent) then [] else [true]
    {
      hide Consistent, Survives;
      Record(LoadJournal, loadedAt);
      if j.stage == RESULT_SAVED {
        var result := if j.commandType == HTTP_GET_JSON && j.httpSnapshot.Some? then HttpResult(j.httpSnapshot.value)
        else ComputeDelayResult(j, loadedAt);
        ReportCompletion(j.commandId, j.leaseId, result, env);
      } else if j.commandType == DELAY && j.scheduledEndAt.Some? {
        ResumeDelay(j, env);
      } else {
        DeleteJournal(env.unlinks);
      }
    }

    /** recoverFromJournal: a saved result and a DELAY that can be finished are reported exactly once,
        anything else is dropped unreported; no outbound request is made. */
    method RecoverFromJournal(readable: bool, loadedAt: int, env: Surroundings)
      requires Valid() && m.pc.Booting?
      modifies this`m, this`trace, this`sent, this`beating, journals, heartbeats
      ensures Valid() && m.pc.Idle?
      ensures readable && env.unlinks ==> m.disk == None
      ensures !readable ==> m.disk == old(m.disk)
      ensures sent ==
              old(sent) + if readable then RecoveryReports(agentId, old(m.disk), executors, loadedAt, env) else []
      ensures if readable && old(m.disk).Some? then heartbeats.State() == Heartbeats.Manager(false, None, true)
              else heartbeats.State() == old(heartbeats.State())
    {
      assert RecoveryReports(agentId, None, executors, loadedAt, env) == [];
      hide Consistent, RecoveryReports;
      var journal := journals.Load(readable);
      if journal == None {
        if readable {
          Record(LoadEmpty, 0);
        } else {
          Record(LoadError, 0);
        }
        return;
      }
      heartbeats.Start(journal.value.commandId, journal.value.leaseId);
      Resume(journal.value, loadedAt, env);
      heartbeats.Stop();
    }

    /** The DELAY half of Work. Heartbeats run until the result is saved. */
    method WorkDelay(c: ClaimResponse, j: Journal, env: Surroundings)
      requires Valid() && m.pc == Starting(j, c.payload) && j == ClaimedJournal(c) && m.disk == Some(j)
      requires c.payload.DelayPayload? && DELAY in executors
      modifies this`m, this`trace, this`sent, this`beating, journals, heartbeats
      ensures Valid() && m.pc.Idle? && (if env.unlinks then m.disk == None else HoldsLease(m.disk, c.leaseId))
      ensures sent == old(sent) + ClaimReports(agentId, c, executors, env)
      ensures beating == old(beating) + if sent == old(sent) then [] else [false]
      ensures heartbeats.State() == Heartbeats.Manager(false, None, old(heartbeats.leaseValid))
    {
      hide Consistent, Survives;
      var result, updated := ExecuteDelay(j, c.payload, env);
      if result == None {
        heartbeats.Stop();
        GiveUp(env);
        return;
      }
      var saved, ok := SaveDelayResult(updated, result.value, env.resultSave);
      heartbeats.Stop();
      if ok {
        ReportCompletion(c.commandId, c.leaseId, result.value, env);
      } else {
        GiveUp(env);
      }
    }

    /** The HTTP_GET_JSON half. */
    method WorkHttp(c: ClaimResponse, j: Journal, env: Surroundings)
      requires Valid() && m.pc == Starting(j, c.payload) && j == ClaimedJournal(c) && m.disk == Some(j)
      requires c.payload.HttpGetJsonPayload? && HTTP_GET_JSON in executors
      modifies this`m, this`trace, this`sent, this`beating, this`requested, journals, heartbeats
      ensures Valid() && m.pc.Idle? && (if env.unlinks then m.disk == None else HoldsLease(m.disk, c.leaseId))
      ensures sent == old(sent) + ClaimReports(agentId, c, executors, env)
      ensures beating == old(beating) + if sent == old(sent) then [] else [false]
      ensures requested == old(requested) + ClaimRequests(c, executors, env)
      ensures heartbeats.State() == Heartbeats.Manager(false, None, old(heartbeats.leaseValid))
    {
      hide Consistent;
      var result, updated := ExecuteHttp(j, env);
      heartbeats.Stop();
      if result.Some? {
        ReportCompletion(c.commandId, c.leaseId, HttpResult(result.value), env);
      } else {
        GiveUp(env);
      }
    }

    /** The part of runOneIteration after the journal exists, with heartbeats for the claim running:
        exactly one report if everything it takes succeeds, and else none. */
    method Work(c: ClaimResponse, j: Journal, env: Surroundings)
      requires Valid() && m.pc == Starting(j, c.payload) && j == ClaimedJournal(c) && m.disk == Some(j)
      requires heartbeats.State() == Heartbeats.Manager(true, Some(Heartbeats.Target(c.commandId, c.leaseId)), true)
      modifies this`m, this`trace, this`sent, this`beating, this`requested, journals, heartbeats
      ensures Valid() && m.pc.Idle? && (if env.unlinks then m.disk == None else HoldsLease(m.disk, c.leaseId))
      ensures sent == old(sent) + ClaimReports(agentId, c, executors, env)
      ensures beating == old(beating) + if sent == old(sent) then [] else [false]
      ensures requested == old(requested) + ClaimRequests(c, executors, env)
      ensures heartbeats.State() == Heartbeats.Manager(false, None, true)
    {
      hide Consistent, WaitSucceeds;
      if j.commandType !in executors {
        heartbeats.Stop();
        GiveUp(env);
      } else if j.commandType == DELAY {
        WorkDelay(c, j, env);
      } else {
        WorkHttp(c, j, env);
      }
    }

    /** runOneIteration: asks once; without a claim nothing else happens, and a claim whose journal
        cannot be saved is dropped. */
    method RunOneIteration(claimed: Option<ClaimResponse>, env: Surroundings)
      requires Valid() && m.pc.Idle?
      modifies this`m, this`trace, this`sent, this`beating, this`requested, this`asked, journals, heartbeats
      ensures Valid() && m.pc.Idle? && asked == old(asked) + 1
      ensures var round := Round(claimed, env);
              if round.Begins() then
                && sent == old(sent) + ClaimReports(agentId, claimed.value, executors, env)
                && requested == old(requested) + ClaimRequests(claimed.value, executors, env)
                && heartbeats.State() == Heartbeats.Manager(false, None, true)
                && (if env.unlinks then m.disk == None else HoldsLease(m.disk, claimed.value.leaseId))
              else
                && sent == old(sent) && requested == old(requested) && m.disk == old(m.disk)
                && heartbeats.State() == old(heartbeats.State())
    {
      hide Consistent, ClaimReports, ClaimRequests;
      SendClaimRequest();
      if claimed == None {
        Record(NoClaim, 0);
        return;
      }
      var c := claimed.value;
      Record(ReceiveClaim(c), 0);
      var j, ok := journals.CreateClaimed(c, env.claimSave);
      if !ok {
        Record(SaveClaimedFails, 0);
        return;
      }
      Record(SaveClaimed, 0);
      heartbeats.Start(c.commandId, c.leaseId);
      Work(c, j, env);
    }

    /** start: recovery, then the polling loop for as long as the process runs, here one round per
        claim request. What it reports and requests is exactly what recovery and the rounds call for. */
    method Start(readable: bool, loadedAt: int, env: Surroundings, rounds: seq<Round>)
      requires Valid() && m.pc.Booting?
      modifies this`m, this`trace, this`sent, this`beating, this`requested, this`asked, journals, heartbeats
      ensures Valid() && m.pc.Idle? && asked == old(asked) + |rounds|
      ensures sent == old(sent) +
                      (if readable then RecoveryReports(agentId, old(m.disk), executors, loadedAt, env) else []) +
                      RoundReports(agentId, executors, rounds, |rounds|)
      ensures requested == old(requested) + RoundRequests(executors, rounds, |rounds|)
      ensures readable && env.unlinks && (forall i | 0 <= i < |rounds| :: rounds[i].env.unlinks) ==> m.disk == None
    {
      hide Consistent, ClaimReports, ClaimRequests, RecoveryReports;
      RecoverFromJournal(readable, loadedAt, env);
      ghost var recovered := sent;
      for i := 0 to |rounds|
        invariant Valid() && m.pc.Idle? && asked == old(asked) + i
        invariant sent == recovered + RoundReports(agentId, executors, rounds, i)
        invariant requested == old(requested) + RoundRequests(executors, rounds, i)
        invariant readable && env.unlinks && (forall k | 0 <= k < i :: rounds[k].env.unlinks) ==> m.disk == None
      {
        RunOneIteration(rounds[i].claimed, rounds[i].env);
      }
    }
  }
}
