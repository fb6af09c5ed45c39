/**
 For which commands the server accepts a result only while the lease has not run out.
 */
module Expiry {
  import opened Commands
  import opened Server
  import opened ServerRuns
  import opened AgentMachine
  import opened QueueSystem
  import opened SystemInv
  import opened Continuations
  import opened Scenarios
  import opened Recovery

  /** A completion report for this claim of this command arrives and is accepted. */
  ghost predicate Arrives(w: World, op: Op, startedAt: int, payload: Payload) {
    && op.Complete? && CanStep(w, Serve(op)) && Accepted(w.server, op)
    && w.server.table[op.id].payload == payload && w.server.table[op.id].startedAt == Some(startedAt)
  }

  /** In every run on time the reports that are accepted for such a claim come before its expiry. */
  ghost predicate AlwaysUnexpired(startedAt: int, payload: Payload) {
    forall w, op | Reachable(w, true) && Arrives(w, op, startedAt, payload) ::
      Unexpired(w.server.table[op.id], w.now)
  }

  lemma AcceptedIsDoable(w: World, op: Op, startedAt: int, payload: Payload)
    requires Reachable(w, true) && Arrives(w, op, startedAt, payload)
    ensures Doable(payload, startedAt)
  {
    ReachableInv(w, true);
    AcceptedIffLive(w.server, op);
    assert RowOk(w.server, op.id) && GrantOk(w.server, op.leaseId);
    assert ReportOk(w.server.issued, w.fetched, ReportOf(op));
  }

  /** A new command, just claimed by agent 0. */
  lemma JustClaimed(startedAt: int, payload: Payload) returns (w: World, c: ClaimResponse)
    ensures Reachable(w, true) && SysInv(w) && Begins(w, 0, c) && ClaimedAt(c, payload, startedAt)
  {
    var first := Pair(EMPTY, ASLEEP, ASLEEP, {}, startedAt);
    StartReachable(first, true);
    first := Served(first, Create(0, payload, startedAt), true);
    ReachableInv(first, true);
    LeadsNowhere(first, true);
    w, c := ComesToBegin(first, first, 0, 0, true);
    LeadsReachable(first, w, true);
  }

  function FinalReport(b: AgentId, pc: Pc): Op
    requires pc.Reporting?
  {
    Complete(pc.j.commandId, b, pc.j.leaseId, pc.result)
  }

  lemma SendsResult(w: World, b: AgentId, c: ClaimResponse) returns (w': World)
    requires Reachable(w, true) && HasResult(w, b, c)
    ensures Reachable(w', true) && w'.server == w.server && w'.now == w.now
    ensures ReportOf(FinalReport(b, w.agents[b].pc)) in w'.reports
  {
    hide Reachable;
    w' := Moved(w, b, SendComplete, true);
  }

  /** The row still shows what the claim said, and when the lease runs out. */
  lemma RowOfClaim(s: State, id: CommandId, b: AgentId, c: ClaimResponse)
    requires Server.Inv(s) && RunsUnder(s, id, b, c)
    ensures s.table[id].payload == c.payload && s.table[id].startedAt == Some(c.startedAt)
    ensures s.table[id].leaseExpiresAt == Some(ExpiryOf(s.table[id]))
  {
    assert RowOk(s, id);
  }

  lemma Overdue(w: World, b: AgentId, c: ClaimResponse) returns (w': World, op: Op)
    requires Reachable(w, true) && HasResult(w, b, c)
    ensures Reachable(w', true) && Arrives(w', op, c.startedAt, c.payload)
    ensures !Unexpired(w'.server.table[op.id], w'.now)
  {
    ReachableInv(w, true);
    RowOfClaim(w.server, c.commandId, b, c);
    hide Reachable, SysInv, ExpiryOf;
    w' := SendsResult(w, b, c);
    w' := Ticked(w', Later(w.now, ExpiryOf(w.server.table[c.commandId])), true);
    op := FinalReport(b, w.agents[b].pc);
  }

  lemma LateReport(startedAt: int, payload: Payload) returns (w: World, op: Op)
    requires Doable(payload, startedAt)
    ensures Reachable(w, true) && Arrives(w, op, startedAt, payload)
    ensures !Unexpired(w.server.table[op.id], w.now)
  {
    var first, c := JustClaimed(startedAt, payload);
    GoesNowhere(first, true);
    hide Goes, SysInv;
    if payload.DelayPayload? {
      w := DelayDoes(first, first, 0, c);
    } else {
      w := HttpDoes(first, first, 0, c, NOTHING);
    }
    GoesReachable(first, w, true);
    w, op := Overdue(w, 0, c);
  }

  /** README.md:62 holds of a claim exactly when the claim can never be completed at all: a DELAY
      whose end is outside the range of Date. */
  lemma AlwaysUnexpiredIff(startedAt: int, payload: Payload)
    ensures AlwaysUnexpired(startedAt, payload) <==>
            payload.DelayPayload? && !(-8640000000000000 <= startedAt + payload.ms <= 8640000000000000)
  {
    if Doable(payload, startedAt) {
      var w, op := LateReport(startedAt, payload);
    } else {
      forall w, op ensures !(Reachable(w, true) && Arrives(w, op, startedAt, payload)) {
        if Reachable(w, true) && Arrives(w, op, startedAt, payload) {
          AcceptedIsDoable(w, op, startedAt, payload);
        }
      }
    }
  }
}
