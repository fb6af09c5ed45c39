/**
 When an HTTP_GET_JSON command is requested twice: exactly when a restart resets its row while the
 lease has been fetched for, or may still be.
 */
module Refetch {
  import opened Commands
  import opened Server
  import opened ServerRuns
  import opened AgentMachine
  import opened QueueSystem
  import opened SystemInv
  import opened Guarantees
  import opened Continuations
  import opened Overlap

  // ---------------------------------------------------------------- leases that cost a request

  /** The process is on its way to the request and has not sent it. */
  predicate MayFetch(a: Agent, l: LeaseId) {
    || (a.pc.Claimed? && a.pc.claim.leaseId == l)
    || (a.pc.Starting? && a.pc.j.leaseId == l)
    || (a.pc.Fetching? && a.pc.j.leaseId == l)
  }

  /** The agent may still send the request of this lease, or is waiting for the response that
      grants it. */
  predicate StillToFetch(w: World, agentId: AgentId, l: LeaseId) {
    && agentId in w.agents && l in w.server.issued && w.server.issued[l].response.payload.HttpGetJsonPayload?
    && (MayFetch(w.agents[agentId], l)
        || (w.agents[agentId].pc.Claiming? && Delivery(agentId, w.server.issued[l].response) in w.responses))
  }

  ghost predicate Costs(w: World, l: LeaseId) {
    l in w.server.issued && (l in w.fetches || exists agentId :: StillToFetch(w, agentId, l))
  }

  /** A restart that resets a row whose lease has been fetched for or still may be. */
  predicate Clears(w: World, step: Step, l: LeaseId) {
    step.Serve? && Carried(w.server, l) && Resets(w.server, step.op, w.server.issued[l].response.commandId)
  }

  ghost predicate Wastes(w: World, step: Step) {
    exists l :: Clears(w, step, l) && Costs(w, l)
  }

  // ---------------------------------------------------------------- nothing wasted, nothing requested twice

  ghost predicate Spared(w: World) {
    forall l | Costs(w, l) :: Carried(w.server, l)
  }

  lemma ServeCostsNothing(w: World, op: Op, agentId: AgentId, l: LeaseId)
    requires SysInv(w) && CanStep(w, Serve(op)) && l in w.server.issued && StillToFetch(AfterServe(w, op), agentId, l)
    ensures StillToFetch(w, agentId, l)
  {
    ServeGrows(w, op);
    assert GrantOk(w.server, l);
  }

  lemma ServeSpares(w: World, op: Op, l: LeaseId)
    requires SysInv(w) && Spared(w) && CanStep(w, Serve(op)) && !Wastes(w, Serve(op)) && Costs(AfterServe(w, op), l)
    ensures Carried(Apply(w.server, op), l)
  {
    if l in w.server.issued {
      if l !in w.fetches {
        var agentId :| StillToFetch(AfterServe(w, op), agentId, l);
        ServeCostsNothing(w, op, agentId, l);
      }
      assert Costs(w, l);
      assert !Clears(w, Serve(op), l);
      CarriedAfter(w.server, op, l);
    } else {
      CarriedOnceGranted(w.server, op, l);
    }
  }

  lemma MayFetchAfter(a: Agent, e: Event, now: int, l: LeaseId)
    requires AgentMachine.Enabled(a, e) && MayFetch(AgentMachine.Next(a, e, now), l) && !e.LoadJournal?
    ensures MayFetch(a, l) || (e.ReceiveClaim? && e.claim.leaseId == l)
  {}

  /** Only requests that were still to be sent are sent. */
  lemma SendsOwed(w: World, id: AgentId, l: LeaseId)
    requires SysInv(w) && CanStep(w, Act(id, SendFetch)) && l == w.agents[id].pc.j.leaseId
    ensures StillToFetch(w, id, l)
  {
    assert AgentOk(w.server.issued, w.fetches, w.fetched, id, w.agents[id]);
  }

  /** Recovery resumes only DELAY. */
  lemma LoadsNoFetch(w: World, id: AgentId, l: LeaseId)
    requires SysInv(w) && CanStep(w, Act(id, LoadJournal)) && l in w.server.issued
    requires MayFetch(AgentMachine.Next(w.agents[id], LoadJournal, w.now), l)
    ensures w.server.issued[l].response.payload.DelayPayload?
  {
    assert AgentOk(w.server.issued, w.fetches, w.fetched, id, w.agents[id]);
  }

  lemma ActOwesNothingNew(w: World, id: AgentId, e: Event, agentId: AgentId, l: LeaseId)
    requires SysInv(w) && CanStep(w, Act(id, e)) && StillToFetch(AfterAct(w, id, e), agentId, l)
    ensures StillToFetch(w, agentId, l)
  {
    AsksBeforeClaiming(w.agents[id], e, w.now);
    hide MayFetch, AgentMachine.Next, AgentMachine.Enabled;
    if id == agentId && MayFetch(AgentMachine.Next(w.agents[id], e, w.now), l) {
      if e.LoadJournal? {
        LoadsNoFetch(w, id, l);
      } else {
        MayFetchAfter(w.agents[id], e, w.now, l);
        if e.ReceiveClaim? {
          assert ClaimOk(w.server.issued, w.fetches, id, e.claim);
        }
      }
    }
  }

  lemma ActSpares(w: World, id: AgentId, e: Event, l: LeaseId)
    requires SysInv(w) && CanStep(w, Act(id, e)) && Costs(AfterAct(w, id, e), l)
    ensures Costs(w, l)
  {
    var w' := AfterAct(w, id, e);
    if l in w'.fetches {
      if l !in w.fetches {
        SendsOwed(w, id, l);
      }
    } else {
      var agentId :| StillToFetch(w', agentId, l);
      ActOwesNothingNew(w, id, e, agentId, l);
    }
  }

  lemma StepSpares(w: World, step: Step)
    requires SysInv(w) && Spared(w) && CanStep(w, step) && !Wastes(w, step)
    ensures Spared(After(w, step))
  {
    forall l | Costs(After(w, step), l) ensures Carried(After(w, step).server, l) {
      match step
      case Serve(op) => ServeSpares(w, op, l);
      case Act(id, e) => ActSpares(w, id, e, l);
      case Tick(_) => TickSpares(w, step, l);
    }
  }

  lemma TickSpares(w: World, step: Step, l: LeaseId)
    requires step.Tick? && Costs(After(w, step), l)
    ensures Costs(w, l)
  {
    if l !in w.fetches {
      var agentId :| StillToFetch(After(w, step), agentId, l);
      assert StillToFetch(w, agentId, l);
    }
  }

  /** A run in which no restart wastes a lease. */
  ghost predicate Unwasted(w: World, steps: seq<Step>, timed: bool) {
    && Path(w, steps, timed)
    && forall k {:trigger Wastes(WorldAt(w, steps, k), steps[k])} | 0 <= k < |steps| ::
         !Wastes(WorldAt(w, steps, k), steps[k])
  }

  lemma {:induction false} UnwastedSpares(w: World, steps: seq<Step>, timed: bool, k: nat)
    requires SysInv(w) && Spared(w) && Unwasted(w, steps, timed) && k <= |steps|
    ensures Spared(WorldAt(w, steps, k))
    decreases k
  {
    if k > 0 {
      UnwastedSpares(w, steps, timed, k - 1);
      PathKeepsSysInv(w, steps, timed, k - 1);
      var before := WorldAt(w, steps, k - 1);
      assert Allowed(before, steps[k - 1], timed) && !Wastes(before, steps[k - 1]);
      StepSpares(before, steps[k - 1]);
    }
  }

  function RequestsFor(w: World, id: CommandId): nat {
    FetchesFor(w.server.issued, w.fetches, id, |w.fetches|)
  }

  lemma SparedMeansOnce(w: World, id: CommandId)
    requires SysInv(w) && Spared(w)
    ensures RequestsFor(w, id) <= 1
  {
    var leases := FetchedLeases(w.server.issued, w.fetches, id, |w.fetches|);
    if leases != {} {
      var l :| l in leases;
      forall m | m in leases ensures m == l {
        assert Costs(w, l) && Costs(w, m);
      }
      assert leases <= {l};
      SubsetIsSmaller(leases, {l});
    }
  }

  lemma InitSpares(w: World)
    requires Init(w)
    ensures Spared(w)
  {}

  /** In a run in which no restart wastes a lease, every command is requested at most once, however
      often agents crash and leases are reset. */
  lemma OncePerCommand(w: World, steps: seq<Step>, timed: bool, k: nat, id: CommandId)
    requires Init(w) && Unwasted(w, steps, timed) && k <= |steps|
    ensures RequestsFor(WorldAt(w, steps, k), id) <= 1
  {
    InitSysInv(w);
    InitSpares(w);
    PathKeepsSysInv(w, steps, timed, k);
    UnwastedSpares(w, steps, timed, k);
    SparedMeansOnce(WorldAt(w, steps, k), id);
  }

  // ---------------------------------------------------------------- a lease wasted, a second request

  lemma Sends(origin: World, w: World, a: AgentId, timed: bool) returns (w': World)
    requires Leads(origin, w, timed) && a in w.agents && w.agents[a].pc.Fetching?
    ensures Leads(origin, w', timed) && OnlyMoved(w, w', a) && w'.fetches == w.fetches + [w.agents[a].pc.j.leaseId]
  {
    hide Leads;
    w' := Takes(origin, w, Act(a, SendFetch), timed);
  }

  /** A process that enters the HTTP executor without a snapshot sends its request. */
  lemma StartsAndSends(origin: World, w: World, a: AgentId, timed: bool) returns (w': World)
    requires Leads(origin, w, timed) && a in w.agents && w.agents[a].pc.Starting?
    requires w.agents[a].pc.j.commandType == HTTP_GET_JSON && w.agents[a].pc.j.httpSnapshot.None?
    ensures Leads(origin, w', timed) && OnlyMoved(w, w', a) && w.agents[a].pc.j.leaseId in w'.fetches
  {
    hide Leads;
    w' := Moves(origin, w, a, StartWork, timed);
    w' := Sends(origin, w', a, timed);
  }

  lemma StartsHttp(w: World, a: AgentId, l: LeaseId)
    requires SysInv(w) && StillToFetch(w, a, l)
    ensures var pc, r := w.agents[a].pc, w.server.issued[l].response;
            && (pc.Starting? && pc.j.leaseId == l ==> pc.j.commandType == HTTP_GET_JSON && pc.j.httpSnapshot.None?)
            && (pc.Claimed? && pc.claim.leaseId == l ==> pc.claim == r)
            && r.leaseId == l
  {
    assert AgentOk(w.server.issued, w.fetches, w.fetched, a, w.agents[a]);
    assert GrantOk(w.server, l);
  }

  /** Whoever may still send the request of a lease can come to send it. */
  lemma OwedIsSent(origin: World, w: World, a: AgentId, l: LeaseId, timed: bool) returns (w': World)
    requires Leads(origin, w, timed) && StillToFetch(w, a, l)
    ensures Leads(origin, w', timed) && OnlyMoved(w, w', a) && l in w'.fetches
  {
    StartsHttp(w, a, l);
    hide Leads, SysInv;
    if w.agents[a].pc.Fetching? {
      w' := Sends(origin, w, a, timed);
    } else {
      w' := w;
      if w.agents[a].pc.Claimed? {
        w' := SavesClaim(origin, w, a, timed);
      } else if w.agents[a].pc.Claiming? {
        w' := TakesUp(origin, w, a, w.server.issued[l].response, timed);
      }
      w' := StartsAndSends(origin, w', a, timed);
    }
  }

  lemma {:induction false} CountGrows(issued: Issued, fetches: seq<LeaseId>, id: CommandId, i: nat, n: nat)
    requires i <= n <= |fetches|
    ensures FetchesFor(issued, fetches, id, i) <= FetchesFor(issued, fetches, id, n)
    decreases n
  {
    if i < n {
      CountGrows(issued, fetches, id, i, n - 1);
    }
  }

  lemma TwoCounted(issued: Issued, fetches: seq<LeaseId>, id: CommandId, l: LeaseId, m: LeaseId)
    requires l != m && l in fetches && m in fetches && l in issued && m in issued
    requires issued[l].response.commandId == id && issued[m].response.commandId == id
    ensures FetchesFor(issued, fetches, id, |fetches|) >= 2
  {
    var i :| 0 <= i < |fetches| && fetches[i] == l;
    var j :| 0 <= j < |fetches| && fetches[j] == m;
    var first, second := if i < j then i else j, if i < j then j else i;
    CountGrows(issued, fetches, id, first + 1, second);
    CountGrows(issued, fetches, id, second + 1, |fetches|);
  }

  lemma CostsHttp(w: World, l: LeaseId)
    requires SysInv(w) && Costs(w, l)
    ensures w.server.issued[l].response.payload.HttpGetJsonPayload?
  {}

  lemma ClearedIsPending(s: State, op: Op, l: LeaseId)
    requires Server.Inv(s) && Carried(s, l) && Resets(s, op, s.issued[l].response.commandId)
    ensures var id := s.issued[l].response.commandId;
            && Apply(s, op).issued == s.issued && Pending(Apply(s, op).table, id)
            && Apply(s, op).table[id].payload == s.issued[l].response.payload
  {
    assert GrantOk(s, l);
  }

  lemma ClearedForRefetch(w: World, step: Step, l: LeaseId)
    requires SysInv(w) && CanStep(w, step) && Clears(w, step, l) && Costs(w, l)
    ensures var w', id := After(w, step), w.server.issued[l].response.commandId;
            && w'.server.issued == w.server.issued && w'.fetches == w.fetches && w'.agents == w.agents
            && Pending(w'.server.table, id) && w'.server.table[id].payload.HttpGetJsonPayload?
            && (l in w.fetches || exists a :: StillToFetch(w', a, l))
  {
    ClearedIsPending(w.server, step.op, l);
    hide SysInv, Legal, Apply, Accepted;
    assert w.server.issued[l].response.payload.HttpGetJsonPayload? by {
      CostsHttp(w, l);
    }
    if l !in w.fetches {
      var a :| StillToFetch(w, a, l);
      assert StillToFetch(After(w, step), a, l);
    }
  }

  /** After a restart has wasted a lease, quiet steps lead to a second request for the command, by
      any agent. */
  lemma RefetchFollows(w: World, step: Step, timed: bool, l: LeaseId, b: AgentId) returns (w': World)
    requires SysInv(w) && Allowed(w, step, timed) && Clears(w, step, l) && Costs(w, l) && b in w.agents
    ensures Leads(After(w, step), w', timed)
    ensures RequestsFor(w', w.server.issued[l].response.commandId) >= 2
  {
    var origin, id := After(w, step), w.server.issued[l].response.commandId;
    StepKeepsSysInv(w, step);
    ClearedForRefetch(w, step, l);
    LeadsNowhere(origin, timed);
    hide Leads, SysInv, After;
    w' := origin;
    if l !in w.fetches {
      var a :| StillToFetch(origin, a, l);
      w' := OwedIsSent(origin, origin, a, l, timed);
    }
    w' := RequestsAgain(origin, w', id, l, b, timed);
  }

  lemma RequestsAgain(origin: World, w: World, id: CommandId, l: LeaseId, b: AgentId, timed: bool) returns (w': World)
    requires Leads(origin, w, timed) && Pending(w.server.table, id) && b in w.agents
    requires w.server.table[id].payload.HttpGetJsonPayload?
    requires l in w.fetches && l in w.server.issued && w.server.issued[l].response.commandId == id
    ensures Leads(origin, w', timed) && RequestsFor(w', id) >= 2
  {
    hide Leads;
    var c;
    w', c := ComesToBegin(origin, w, id, b, timed);
    w' := StartsAndSends(origin, w', b, timed);
    TwoCounted(w'.server.issued, w'.fetches, id, l, c.leaseId);
  }

  // ---------------------------------------------------------------- exactly then

  /** A run in which no restart wasted a lease leads here. */
  ghost predicate Thrifty(w: World, timed: bool) {
    exists start, steps :: Init(start) && Unwasted(start, steps, timed) && WorldAt(start, steps, |steps|) == w
  }

  ghost predicate RequestsTwice(w: World, steps: seq<Step>, timed: bool) {
    Unwasted(w, steps, timed) && exists id :: RequestsFor(WorldAt(w, steps, |steps|), id) >= 2
  }

  lemma LeadsToSecond(w: World, w': World, timed: bool, id: CommandId)
    requires Leads(w, w', timed) && RequestsFor(w', id) >= 2
    ensures exists steps :: RequestsTwice(w, steps, timed)
  {
    var steps :| QuietPath(w, steps, timed, w');
    assert RequestsTwice(w, steps, timed);
  }

  lemma NeverTwice(w: World, steps: seq<Step>, timed: bool)
    requires SysInv(w) && Spared(w)
    ensures !RequestsTwice(w, steps, timed)
  {
    if Unwasted(w, steps, timed) {
      PathKeepsSysInv(w, steps, timed, |steps|);
      UnwastedSpares(w, steps, timed, |steps|);
      forall id ensures RequestsFor(WorldAt(w, steps, |steps|), id) < 2 {
        SparedMeansOnce(WorldAt(w, steps, |steps|), id);
      }
    }
  }

  /** README.md:34 fails exactly because of restarts that waste a lease: as long as none has, a step
      is such a restart if and only if some continuation without another one requests a command a
      second time. */
  lemma RefetchIff(w: World, step: Step, timed: bool)
    requires Thrifty(w, timed) && Allowed(w, step, timed) && w.agents.Keys != {}
    ensures Wastes(w, step) <==> exists steps :: RequestsTwice(After(w, step), steps, timed)
  {
    var start, before :| Init(start) && Unwasted(start, before, timed) && WorldAt(start, before, |before|) == w;
    InitSysInv(start);
    InitSpares(start);
    PathKeepsSysInv(start, before, timed, |before|);
    UnwastedSpares(start, before, timed, |before|);
    if Wastes(w, step) {
      var l :| Clears(w, step, l) && Costs(w, l);
      var b :| b in w.agents;
      var w' := RefetchFollows(w, step, timed, l, b);
      LeadsToSecond(After(w, step), w', timed, w.server.issued[l].response.commandId);
    } else {
      StepKeepsSysInv(w, step);
      StepSpares(w, step);
      forall steps ensures !RequestsTwice(After(w, step), steps, timed) {
        NeverTwice(After(w, step), steps, timed);
      }
    }
  }
}
