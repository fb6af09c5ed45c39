/**
 What becomes of commands whose agents crash: which waiting commands some run still completes, and
 what it takes to free a command whose lease nobody works under any more.
 */
module Recovery {
  import opened Commands
  import opened Server
  import opened ServerRuns
  import opened AgentMachine
  import opened QueueSystem
  import opened SystemInv
  import opened Guarantees
  import opened JournalLife
  import opened Continuations
  import opened Scenarios
  import opened Boundaries
  import Duplicates

  // ---------------------------------------------------------------- from a claim to its completion

  predicate Completed(w: World, id: CommandId) {
    id in w.server.table && w.server.table[id].status == COMPLETED
  }

  /** A run on time from here completes the command. */
  ghost predicate CanComplete(w: World, id: CommandId) {
    exists steps :: Path(w, steps, true) && Completed(WorldAt(w, steps, |steps|), id)
  }

  /** An agent with a saved result of the current lease can report it. */
  lemma ReportsIt(origin: World, w: World, b: AgentId, timed: bool) returns (w': World)
    requires Goes(origin, w, timed) && b in w.agents && w.agents[b].pc.Reporting?
    requires var j := w.agents[b].pc.j; Current(w.server.table, j.commandId, b, j.leaseId)
    ensures Goes(origin, w', timed) && Completed(w', w.agents[b].pc.j.commandId)
  {
    hide Goes;
    var pc := w.agents[b].pc;
    w' := Proceeds(origin, w, Act(b, SendComplete), timed);
    w' := Proceeds(origin, w', Serve(Complete(pc.j.commandId, b, pc.j.leaseId, pc.result)), timed);
  }

  /** The result is on disk, the claim as it was. */
  predicate HasResult(w: World, b: AgentId, c: ClaimResponse) {
    && b in w.agents && w.agents[b].pc.Reporting? && RunsUnder(w.server, c.commandId, b, c)
    && w.agents[b].pc.j.commandId == c.commandId && w.agents[b].pc.j.leaseId == c.leaseId
  }

  lemma WaitsItOut(origin: World, w: World, b: AgentId, j: Journal, payload: Payload) returns (w': World)
    requires Goes(origin, w, true) && b in w.agents && w.agents[b].pc == Ready(j, payload)
    requires HasDate(DelayTarget(j, payload))
    ensures Goes(origin, w', true) && w'.server == w.server && b in w'.agents
    ensures w'.agents[b].pc == Waited(j, DelayTarget(j, payload))
  {
    hide Goes;
    w' := Proceeds(origin, w, Act(b, SetTimer), true);
    if w'.agents[b].pc.Waiting? {
      w' := Proceeds(origin, w', Tick(w'.agents[b].pc.due), true);
      w' := Proceeds(origin, w', Act(b, TimerFires), true);
    }
  }

  lemma DelayDoes(origin: World, w: World, b: AgentId, c: ClaimResponse) returns (w': World)
    requires Goes(origin, w, true) && Begins(w, b, c) && c.payload.DelayPayload?
    requires ClaimedAt(c, c.payload, c.startedAt) && HasDate(c.startedAt + c.payload.ms)
    ensures Goes(origin, w', true) && HasResult(w', b, c)
  {
    hide Goes;
    w' := Proceeds(origin, w, Act(b, StartWork), true);
    w' := WaitsItOut(origin, w', b, w'.agents[b].pc.j, c.payload);
    w' := Proceeds(origin, w', Act(b, SaveResult), true);
  }

  lemma Requests(origin: World, w: World, b: AgentId, c: ClaimResponse) returns (w': World)
    requires Goes(origin, w, true) && Begins(w, b, c) && c.payload.HttpGetJsonPayload?
    ensures Goes(origin, w', true) && w'.server == w.server && b in w'.agents
    ensures w'.agents[b].pc == AwaitingFetch(ClaimedJournal(c).(stage := IN_PROGRESS))
  {
    hide Goes;
    w' := Proceeds(origin, w, Act(b, StartWork), true);
    w' := Proceeds(origin, w', Act(b, SendFetch), true);
  }

  lemma HttpDoes(origin: World, w: World, b: AgentId, c: ClaimResponse, http: HttpGetJsonResult) returns (w': World)
    requires Goes(origin, w, true) && Begins(w, b, c) && c.payload.HttpGetJsonPayload?
    ensures Goes(origin, w', true) && HasResult(w', b, c)
  {
    hide Goes;
    w' := Requests(origin, w, b, c);
    w' := Proceeds(origin, w', Act(b, FetchReturns(http)), true);
    w' := Proceeds(origin, w', Act(b, SaveSnapshot), true);
  }

  // ---------------------------------------------------------------- a waiting command

  /** A claim made at `now` can be completed. */
  predicate Doable(payload: Payload, now: int) {
    payload.DelayPayload? ==> HasDate(now + payload.ms)
  }

  const NOTHING := HttpGetJsonResult(0, None, false, 0, None)

  lemma ClaimAndDo(origin: World, w: World, id: CommandId, b: AgentId) returns (w': World)
    requires Goes(origin, w, true) && Pending(w.server.table, id) && b in w.agents
    requires Doable(w.server.table[id].payload, w.now)
    ensures Goes(origin, w', true) && Completed(w', id)
  {
    LeadsNowhere(w, true);
    var m, c := ComesToBegin(w, w, id, b, true);
    GoesOn(origin, w, m, true);
    hide Goes, Leads;
    if c.payload.DelayPayload? {
      w' := DelayDoes(origin, m, b, c);
    } else {
      w' := HttpDoes(origin, m, b, c, NOTHING);
    }
    w' := ReportsIt(origin, w', b, true);
  }

  lemma GoesCompletes(w: World, w': World, id: CommandId)
    requires Goes(w, w', true) && Completed(w', id)
    ensures CanComplete(w, id)
  {
    var steps :| PathTo(w, steps, true, w');
  }

  /** The clock has not run back since `now`, and any claim in force was made since. */
  predicate ClaimedSince(w: World, id: CommandId, payload: Payload, now: int) {
    && now <= w.now && id in w.server.table && w.server.table[id].payload == payload
    && (w.server.table[id].status == PENDING
        || (w.server.table[id].startedAt.Some? && now <= w.server.table[id].startedAt.value))
  }

  lemma StepClaimsSince(w: World, step: Step, id: CommandId, payload: Payload, now: int)
    requires Allowed(w, step, true) && ClaimedSince(w, id, payload, now)
    ensures ClaimedSince(After(w, step), id, payload, now)
  {}

  lemma {:induction false} PathClaimsSince(w: World, steps: seq<Step>, k: nat, id: CommandId, payload: Payload,
                                           now: int)
    requires Path(w, steps, true) && k <= |steps| && ClaimedSince(w, id, payload, now)
    ensures ClaimedSince(WorldAt(w, steps, k), id, payload, now)
    decreases k
  {
    if k > 0 {
      PathClaimsSince(w, steps, k - 1, id, payload, now);
      assert Allowed(WorldAt(w, steps, k - 1), steps[k - 1], true);
      StepClaimsSince(WorldAt(w, steps, k - 1), steps[k - 1], id, payload, now);
    }
  }

  /** Some claim made now or later can be completed. */
  predicate StillDoable(payload: Payload, now: int) {
    payload.DelayPayload? ==> now + payload.ms <= MAX_DATE_MS
  }

  lemma CompletedMeansDoable(w: World, steps: seq<Step>, id: CommandId)
    requires Reachable(w, true) && Pending(w.server.table, id)
    requires Path(w, steps, true) && Completed(WorldAt(w, steps, |steps|), id)
    ensures StillDoable(w.server.table[id].payload, w.now)
  {
    var payload, end := w.server.table[id].payload, WorldAt(w, steps, |steps|);
    PathClaimsSince(w, steps, |steps|, id, payload, w.now);
    OnwardReachable(w, steps, true, |steps|);
    if payload.DelayPayload? {
      DoneHasDate(end, true, id, end.server.table[id].startedAt.value, payload.ms);
    }
  }

  /** If need be the claim waits until its end is late enough for a Date. */
  lemma WaitsAndDoes(origin: World, w: World, id: CommandId, b: AgentId) returns (w': World)
    requires Goes(origin, w, true) && Pending(w.server.table, id) && b in w.agents
    requires StillDoable(w.server.table[id].payload, w.now)
    ensures Goes(origin, w', true) && Completed(w', id)
  {
    hide Goes;
    var payload := w.server.table[id].payload;
    w' := w;
    if payload.DelayPayload? && w.now + payload.ms < -MAX_DATE_MS {
      w' := Proceeds(origin, w, Tick(-MAX_DATE_MS - payload.ms), true);
    }
    w' := ClaimAndDo(origin, w', id, b);
  }

  /** From every state of every run on time, a waiting command can be completed, by any agents there
      are, exactly when it is a fetch or its delay still ends within the range of Date. */
  lemma WaitingRecoversIff(w: World, id: CommandId)
    requires Reachable(w, true) && Pending(w.server.table, id) && w.agents.Keys != {}
    ensures CanComplete(w, id) <==> StillDoable(w.server.table[id].payload, w.now)
  {
    if StillDoable(w.server.table[id].payload, w.now) {
      ReachableInv(w, true);
      GoesNowhere(w, true);
      var b :| b in w.agents;
      var w' := WaitsAndDoes(w, w, id, b);
      GoesCompletes(w, w', id);
    } else if CanComplete(w, id) {
      var steps :| Path(w, steps, true) && Completed(WorldAt(w, steps, |steps|), id);
      CompletedMeansDoable(w, steps, id);
    }
  }

  // ---------------------------------------------------------------- a running command

  function ExpiryOf(row: Row): int {
    if row.leaseExpiresAt.Some? then row.leaseExpiresAt.value else 0
  }

  lemma ResetAtExpiry(s: State, id: CommandId, now: int)
    requires Server.Inv(s) && id in s.table && s.table[id].status == RUNNING && ExpiryOf(s.table[id]) <= now
    ensures Pending(Apply(s, Restart(now)).table, id)
    ensures Apply(s, Restart(now)).table[id].payload == s.table[id].payload
  {
    assert RowOk(s, id);
  }

  lemma ResetsAfterExpiry(w: World, id: CommandId) returns (w': World)
    requires SysInv(w) && id in w.server.table && w.server.table[id].status == RUNNING
    ensures Goes(w, w', true) && Pending(w'.server.table, id) && w'.agents == w.agents
    ensures w'.server.table[id].payload == w.server.table[id].payload
    ensures w'.now == Later(w.now, ExpiryOf(w.server.table[id]))
  {
    GoesNowhere(w, true);
    var end := Later(w.now, ExpiryOf(w.server.table[id]));
    ResetAtExpiry(w.server, id, end);
    hide Goes, SysInv, Apply, ExpiryOf;
    w' := Proceeds(w, w, Tick(end), true);
    w' := Proceeds(w, w', Serve(Restart(end)), true);
  }

  /** A running command, whatever became of its agent, can be completed through one restart of the
      server after the lease has run out, if a claim from then on still can. */
  lemma RunningRecovers(w: World, id: CommandId)
    requires Reachable(w, true) && w.agents.Keys != {}
    requires id in w.server.table && w.server.table[id].status == RUNNING
    requires StillDoable(w.server.table[id].payload, Later(w.now, ExpiryOf(w.server.table[id])))
    ensures CanComplete(w, id)
  {
    ReachableInv(w, true);
    var b :| b in w.agents;
    var w' := ResetsAfterExpiry(w, id);
    w' := WaitsAndDoes(w, w', id, b);
    GoesCompletes(w, w', id);
  }

  // ---------------------------------------------------------------- a lost lease

  /** The lease is live, but its agent is done with it and has reported nothing. */
  ghost predicate Lost(w: World, l: LeaseId) {
    && Live(w.server, l) && Spent(w, w.server.issued[l].agentId, l)
    && forall r | r in w.reports :: r.leaseId != l
  }

  /** The only steps that free the command of a lost lease: a restart after its expiry, or an
      accepted failure report, which no agent ever sends. */
  predicate Frees(w: World, step: Step, l: LeaseId) {
    && step.Serve? && l in w.server.issued
    && var id := w.server.issued[l].response.commandId;
    && (Resets(w.server, step.op, id) || (step.op.Fail? && step.op.leaseId == l && Finishes(w.server, step.op, id)))
  }

  lemma LostAfterServe(w: World, op: Op, l: LeaseId)
    requires SysInv(w) && CanStep(w, Serve(op)) && Lost(w, l)
    ensures if Frees(w, Serve(op), l) then Dead(AfterServe(w, op).server, l) else Lost(AfterServe(w, op), l)
  {
    LeaseEndsOnlyBy(w.server, op, l);
    SpentAfterServe(w, op, w.server.issued[l].agentId, l);
    ServeGrows(w, op);
  }

  lemma LostAfterAct(w: World, id: AgentId, e: Event, l: LeaseId)
    requires SysInv(w) && CanStep(w, Act(id, e)) && Lost(w, l)
    ensures Lost(AfterAct(w, id, e), l)
  {
    var a := w.server.issued[l].agentId;
    SpentAfterAct(w, id, e, a, l);
    assert AgentOk(w.server.issued, w.fetches, w.fetched, id, w.agents[id]);
    if e.SendComplete? && w.agents[id].pc.j.leaseId == l {
      HeldIsIssued(w.server.issued, w.fetches, w.fetched, id, w.agents[id], l);
      assert false;
    }
  }

  lemma LostOrDeadStep(w: World, step: Step, l: LeaseId)
    requires SysInv(w) && CanStep(w, step)
    ensures Lost(w, l) ==> if Frees(w, step, l) then Dead(After(w, step).server, l) else Lost(After(w, step), l)
    ensures Dead(w.server, l) ==> Dead(After(w, step).server, l)
  {
    if step.Serve? {
      if Lost(w, l) {
        LostAfterServe(w, step.op, l);
      } else if Dead(w.server, l) {
        DeadStaysDead(w.server, step.op, l);
      }
    } else if step.Act? && Lost(w, l) {
      LostAfterAct(w, step.agentId, step.event, l);
    }
  }

  ghost predicate FreedBefore(w: World, steps: seq<Step>, k: nat, l: LeaseId)
    requires k <= |steps|
  {
    exists i | 0 <= i < k :: Frees(WorldAt(w, steps, i), steps[i], l)
  }

  lemma FreedStep(w: World, steps: seq<Step>, k: nat, l: LeaseId)
    requires k < |steps|
    ensures FreedBefore(w, steps, k + 1, l) <==>
            FreedBefore(w, steps, k, l) || Frees(WorldAt(w, steps, k), steps[k], l)
  {
    hide Frees, WorldAt;
  }

  ghost predicate LostUnlessFreed(w: World, steps: seq<Step>, k: nat, l: LeaseId)
    requires k <= |steps|
  {
    if FreedBefore(w, steps, k, l) then Dead(WorldAt(w, steps, k).server, l) else Lost(WorldAt(w, steps, k), l)
  }

  lemma LostAtFirst(w: World, steps: seq<Step>, l: LeaseId)
    requires Lost(w, l)
    ensures LostUnlessFreed(w, steps, 0, l)
  {}

  lemma LostNext(w: World, steps: seq<Step>, timed: bool, k: nat, l: LeaseId)
    requires SysInv(w) && Path(w, steps, timed) && k < |steps| && LostUnlessFreed(w, steps, k, l)
    ensures LostUnlessFreed(w, steps, k + 1, l)
  {
    var before, step := WorldAt(w, steps, k), steps[k];
    PathKeepsSysInv(w, steps, timed, k);
    assert Allowed(before, step, timed);
    FreedStep(w, steps, k, l);
    LostOrDeadStep(before, step, l);
    assert WorldAt(w, steps, k + 1) == After(before, step);
    hide SysInv, Lost, Dead, Frees, FreedBefore, After, WorldAt, Path, Allowed;
  }

  lemma {:induction false} LostOrDead(w: World, steps: seq<Step>, timed: bool, k: nat, l: LeaseId)
    requires SysInv(w) && Path(w, steps, timed) && k <= |steps| && Lost(w, l)
    ensures LostUnlessFreed(w, steps, k, l)
    decreases k
  {
    hide SysInv, Path, Lost, LostUnlessFreed;
    LostAtFirst(w, steps, l);
    if k > 0 {
      LostOrDead(w, steps, timed, k - 1, l);
      LostNext(w, steps, timed, k - 1, l);
    }
  }

  /** The command of a lost lease stays RUNNING under it through any run, however long, exactly as
      long as no restart has reset it and no failure report for it was accepted. */
  lemma LostUntilFreed(w: World, steps: seq<Step>, timed: bool, k: nat, l: LeaseId)
    requires Reachable(w, timed) && Path(w, steps, timed) && k <= |steps| && Lost(w, l)
    ensures Live(WorldAt(w, steps, k).server, l) <==> !FreedBefore(w, steps, k, l)
  {
    ReachableInv(w, timed);
    LostOrDead(w, steps, timed, k, l);
  }

  lemma DropsUnsent(w: World, a: AgentId, timed: bool)
    requires SysInv(w) && Reachable(w, timed) && a in w.agents && w.agents[a].pc.Cleaning? && w.agents[a].disk.Some?
    requires w.agents[a].disk.value.stage != RESULT_SAVED && Live(w.server, w.agents[a].disk.value.leaseId)
    ensures Lost(AfterAct(w, a, DeleteJournal), w.agents[a].disk.value.leaseId)
  {
    var l := w.agents[a].disk.value.leaseId;
    DeleteSpends(w, timed, a);
    HeldIsIssued(w.server.issued, w.fetches, w.fetched, a, w.agents[a], l);
    forall r | r in w.reports ensures r.leaseId != l {
      if r.leaseId == l {
        SavedBeforeSent(w, timed, a, r);
      }
    }
  }

  /** A crash loses every HTTP_GET_JSON command whose result is not saved: the agent recovers by
      dropping the journal, and the lease stays live. */
  lemma CrashLoses(w: World, timed: bool, a: AgentId) returns (w': World)
    requires Reachable(w, timed) && a in w.agents && w.agents[a].disk.Some?
    requires var j := w.agents[a].disk.value;
             j.commandType == HTTP_GET_JSON && j.stage != RESULT_SAVED && Live(w.server, j.leaseId)
    ensures Leads(w, w', timed) && Lost(w', w.agents[a].disk.value.leaseId)
  {
    ReachableInv(w, timed);
    LeadsNowhere(w, timed);
    hide Leads, SysInv, Reachable, Lost, Live;
    var m := CrashesAndLoads(w, timed, a);
    LeadsReachable(w, m, timed);
    ReachableInv(m, timed);
    DropsUnsent(m, a, timed);
    w' := Drops(w, m, a, timed);
  }

  lemma Drops(origin: World, w: World, a: AgentId, timed: bool) returns (w': World)
    requires Leads(origin, w, timed) && a in w.agents && w.agents[a].pc.Cleaning?
    ensures Leads(origin, w', timed) && w' == AfterAct(w, a, DeleteJournal)
  {
    hide Leads;
    w' := Takes(origin, w, Act(a, DeleteJournal), timed);
  }

  lemma CrashesAndLoads(w: World, timed: bool, a: AgentId) returns (w': World)
    requires Leads(w, w, timed) && a in w.agents && w.agents[a].disk.Some?
    requires w.agents[a].disk.value.commandType == HTTP_GET_JSON && w.agents[a].disk.value.stage != RESULT_SAVED
    ensures Leads(w, w', timed) && OnlyMoved(w, w', a) && w'.agents[a] == Agent(Cleaning, w.agents[a].disk)
  {
    hide Leads;
    w' := Reboots(w, w, a, timed);
    w' := Moves(w, w', a, LoadJournal, timed);
  }
}
