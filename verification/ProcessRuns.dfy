/**
 The agent program inside the whole system: a run of the system, seen from one agent, is exactly a
 trace of that program whose messages the network carries.
 */
module ProcessRuns {
  import opened Commands
  import opened AgentMachine
  import opened QueueSystem
  import opened AgentProcess

  /** What one agent does in a run, with the clock readings it sees. */
  function Projection(w: World, steps: seq<Step>, id: AgentId, k: nat): seq<Entry>
    requires k <= |steps|
  {
    if k == 0 then []
    else Projection(w, steps, id, k - 1) +
         if IsOwn(steps[k - 1], id) then [Entry(steps[k - 1].event, WorldAt(w, steps, k - 1).now)] else []
  }

  predicate IsOwn(step: Step, id: AgentId) {
    step.Act? && step.agentId == id
  }

  /** The agent's state in the run is where the trace has led the machine. */
  lemma {:induction false} AgentFollows(w: World, steps: seq<Step>, id: AgentId, k: nat)
    requires k <= |steps| && id in w.agents
    ensures id in WorldAt(w, steps, k).agents
    ensures var trace := Projection(w, steps, id, k);
            WorldAt(w, steps, k).agents[id] == MachineAt(w.agents[id], trace, |trace|)
    decreases k
  {
    if k > 0 {
      AgentFollows(w, steps, id, k - 1);
      var trace := Projection(w, steps, id, k - 1);
      if IsOwn(steps[k - 1], id) {
        MachineAtPrefix(w.agents[id], trace, Projection(w, steps, id, k), |trace|);
      } else {
        assert Projection(w, steps, id, k) == trace;
      }
    }
  }

  lemma {:induction false} ProjectionPrefix(w: World, steps: seq<Step>, id: AgentId, i: nat, k: nat)
    requires i <= k <= |steps|
    ensures var short, long := Projection(w, steps, id, i), Projection(w, steps, id, k);
            |short| <= |long| && long[..|short|] == short
    decreases k
  {
    if i < k {
      ProjectionPrefix(w, steps, id, i, k - 1);
    }
  }

  // ---------------------------------------------------------------- the network's part

  /** The message the event takes in has been sent, and its timer is due. */
  predicate Carries(w: World, id: AgentId, e: Event, timed: bool)
    requires id in w.agents
  {
    var pc := w.agents[id].pc;
    && (e.ReceiveClaim? ==> Delivery(id, e.claim) in w.responses)
    && (e.Acknowledged? && pc.AwaitingAck? ==> Report(pc.j.commandId, id, pc.j.leaseId, pc.result) in w.acks)
    && (timed && e.TimerFires? && pc.Waiting? ==> pc.due <= w.now)
  }

  /** Everyone else makes possible steps, and for this agent the network plays its part. */
  ghost predicate Fits(w: World, step: Step, id: AgentId, timed: bool) {
    if IsOwn(step, id) then id in w.agents && Carries(w, id, step.event, timed) else Allowed(w, step, timed)
  }

  ghost predicate Environment(w: World, steps: seq<Step>, id: AgentId, timed: bool) {
    forall k {:trigger Fits(WorldAt(w, steps, k), steps[k], id, timed)} | 0 <= k < |steps| ::
      Fits(WorldAt(w, steps, k), steps[k], id, timed)
  }

  lemma OwnStepIff(w: World, id: AgentId, e: Event, timed: bool)
    requires id in w.agents
    ensures Allowed(w, Act(id, e), timed) <==> AgentMachine.Enabled(w.agents[id], e) && Carries(w, id, e, timed)
  {}

  // ---------------------------------------------------------------- runs and traces

  lemma LegalPrefix(start: Agent, short: seq<Entry>, long: seq<Entry>)
    requires LegalTrace(start, long) && |short| <= |long| && long[..|short|] == short
    ensures LegalTrace(start, short)
  {
    forall k | 0 <= k < |short| ensures AgentMachine.Enabled(MachineAt(start, short, k), short[k].event) {
      MachineAtPrefix(start, short, long, k);
      assert AgentMachine.Enabled(MachineAt(start, long, k), long[k].event);
      assert long[k] == long[..|short|][k];
    }
  }

  /** A run of the system gives a legal trace of each of its agents. */
  lemma {:induction false} RunGivesTrace(w: World, steps: seq<Step>, id: AgentId, timed: bool, k: nat)
    requires Path(w, steps, timed) && k <= |steps| && id in w.agents
    ensures LegalTrace(w.agents[id], Projection(w, steps, id, k))
    decreases k
  {
    if k > 0 {
      RunGivesTrace(w, steps, id, timed, k - 1);
      AgentFollows(w, steps, id, k - 1);
      var before, step := WorldAt(w, steps, k - 1), steps[k - 1];
      assert Allowed(before, step, timed);
      if IsOwn(step, id) {
        OwnStepIff(before, id, step.event, timed);
        TraceExtends(w.agents[id], Projection(w, steps, id, k - 1), Entry(step.event, before.now));
      } else {
        assert Projection(w, steps, id, k) == Projection(w, steps, id, k - 1);
      }
    }
  }

  /** A step of a legal trace is possible where the run has it. */
  lemma TraceStepAllowed(w: World, steps: seq<Step>, id: AgentId, timed: bool, k: nat)
    requires k < |steps| && id in w.agents && IsOwn(steps[k], id)
    requires LegalTrace(w.agents[id], Projection(w, steps, id, |steps|))
    requires Fits(WorldAt(w, steps, k), steps[k], id, timed)
    ensures Allowed(WorldAt(w, steps, k), steps[k], timed)
  {
    hide Allowed, Carries, After;
    var start, trace, longer := w.agents[id], Projection(w, steps, id, k), Projection(w, steps, id, k + 1);
    ProjectionPrefix(w, steps, id, k + 1, |steps|);
    LegalPrefix(start, longer, Projection(w, steps, id, |steps|));
    assert AgentMachine.Enabled(MachineAt(start, longer, |trace|), longer[|trace|].event);
    MachineAtPrefix(start, trace, longer, |trace|);
    AgentFollows(w, steps, id, k);
    OwnStepIff(WorldAt(w, steps, k), id, steps[k].event, timed);
  }

  /** Any sequence of steps is a run of the system exactly when what one agent does in it is a legal
      trace of the agent's machine, the messages it takes in are there, and everyone else's steps
      are possible. */
  lemma RunIffTrace(w: World, steps: seq<Step>, id: AgentId, timed: bool)
    requires id in w.agents
    ensures Path(w, steps, timed) <==>
            LegalTrace(w.agents[id], Projection(w, steps, id, |steps|)) && Environment(w, steps, id, timed)
  {
    if Path(w, steps, timed) {
      RunGivesTrace(w, steps, id, timed, |steps|);
      forall k | 0 <= k < |steps| ensures Fits(WorldAt(w, steps, k), steps[k], id, timed) {
        assert Allowed(WorldAt(w, steps, k), steps[k], timed);
        AgentFollows(w, steps, id, k);
        if IsOwn(steps[k], id) {
          OwnStepIff(WorldAt(w, steps, k), id, steps[k].event, timed);
        }
      }
    }
    if LegalTrace(w.agents[id], Projection(w, steps, id, |steps|)) && Environment(w, steps, id, timed) {
      forall k | 0 <= k < |steps| ensures Allowed(WorldAt(w, steps, k), steps[k], timed) {
        assert Fits(WorldAt(w, steps, k), steps[k], id, timed);
        if IsOwn(steps[k], id) {
          TraceStepAllowed(w, steps, id, timed, k);
        }
      }
    }
  }

  lemma OthersReport(w: World, step: Step, id: AgentId, r: Report)
    requires !IsOwn(step, id) && r.agentId == id
    ensures r in After(w, step).reports <==> r in w.reports
  {}

  lemma OwnReports(w: World, id: AgentId, e: Event, r: Report)
    requires id in w.agents && AgentMachine.Enabled(w.agents[id], e)
    ensures r in After(w, Act(id, e)).reports <==> r in w.reports || r in SentBy(id, w.agents[id], e)
  {}

  /** The reports the program has sent by step k. */
  function SentBefore(w: World, steps: seq<Step>, id: AgentId, k: nat): seq<Report>
    requires k <= |steps| && id in w.agents
  {
    var trace := Projection(w, steps, id, k);
    SentIn(id, w.agents[id], trace, |trace|)
  }

  lemma NothingSent(w: World, steps: seq<Step>, id: AgentId)
    requires id in w.agents
    ensures SentBefore(w, steps, id, 0) == []
  {}

  lemma NextSent(w: World, steps: seq<Step>, id: AgentId, k: nat)
    requires k < |steps| && id in w.agents
    ensures id in WorldAt(w, steps, k).agents
    ensures SentBefore(w, steps, id, k + 1) == SentBefore(w, steps, id, k) +
            if IsOwn(steps[k], id) then SentBy(id, WorldAt(w, steps, k).agents[id], steps[k].event) else []
  {
    AgentFollows(w, steps, id, k);
    var trace := Projection(w, steps, id, k);
    hide After, SentBy, SentIn, MachineAt;
    if IsOwn(steps[k], id) {
      EffectsExtend(id, w.agents[id], trace, Entry(steps[k].event, WorldAt(w, steps, k).now));
    } else {
      assert Projection(w, steps, id, k + 1) == trace;
    }
  }

  lemma NextReports(w: World, steps: seq<Step>, id: AgentId, timed: bool, k: nat, r: Report)
    requires Path(w, steps, timed) && k < |steps| && id in w.agents && r.agentId == id
    ensures id in WorldAt(w, steps, k).agents
    ensures r in WorldAt(w, steps, k + 1).reports <==>
            || r in WorldAt(w, steps, k).reports
            || (IsOwn(steps[k], id) && r in SentBy(id, WorldAt(w, steps, k).agents[id], steps[k].event))
  {
    var before, step := WorldAt(w, steps, k), steps[k];
    AgentFollows(w, steps, id, k);
    assert Allowed(before, step, timed);
    hide After, Allowed, SentBy, Path, MachineAt;
    if IsOwn(step, id) {
      OwnStepIff(before, id, step.event, timed);
      OwnReports(before, id, step.event, r);
    } else {
      OthersReport(before, step, id, r);
    }
  }

  ghost predicate Tallies(w: World, steps: seq<Step>, id: AgentId, k: nat, r: Report)
    requires k <= |steps| && id in w.agents
  {
    r in WorldAt(w, steps, k).reports <==> r in w.reports || r in SentBefore(w, steps, id, k)
  }

  lemma TalliesNext(w: World, steps: seq<Step>, id: AgentId, timed: bool, k: nat, r: Report)
    requires Path(w, steps, timed) && k < |steps| && id in w.agents && r.agentId == id && Tallies(w, steps, id, k, r)
    ensures Tallies(w, steps, id, k + 1, r)
  {
    hide SentBefore, SentBy, After, Path;
    NextSent(w, steps, id, k);
    NextReports(w, steps, id, timed, k, r);
  }

  lemma {:induction false} TalliesAlways(w: World, steps: seq<Step>, id: AgentId, timed: bool, k: nat, r: Report)
    requires Path(w, steps, timed) && k <= |steps| && id in w.agents && r.agentId == id
    ensures Tallies(w, steps, id, k, r)
    decreases k
  {
    NothingSent(w, steps, id);
    assert Tallies(w, steps, id, 0, r);
    hide Tallies, Path;
    if k > 0 {
      TalliesAlways(w, steps, id, timed, k - 1, r);
      TalliesNext(w, steps, id, timed, k - 1, r);
    }
  }

  /** In such a run the agent's reports on the network are exactly those its program has sent. */
  lemma ReportsAreSent(w: World, steps: seq<Step>, id: AgentId, timed: bool, k: nat, r: Report)
    requires Path(w, steps, timed) && k <= |steps| && id in w.agents && r.agentId == id
    ensures var trace := Projection(w, steps, id, k);
            r in WorldAt(w, steps, k).reports <==>
              r in w.reports || r in SentIn(id, w.agents[id], trace, |trace|)
  {
    TalliesAlways(w, steps, id, timed, k, r);
  }
}
