/**
 Exactly where the promises about DELAY hold, and a report accepted after its lease ran out.
 */
module Boundaries {
  import opened Commands
  import opened Server
  import opened AgentMachine
  import opened QueueSystem
  import opened SystemInv
  import opened Guarantees
  import opened Timing
  import opened Scenarios

  /** The row is COMPLETED, and was asked to wait this long. */
  predicate DelayDone(w: World, id: CommandId, ms: int) {
    id in w.server.table && w.server.table[id].status == COMPLETED && w.server.table[id].payload == DelayPayload(ms)
  }

  /** The same, by the claim at `startedAt`. */
  predicate DoneSince(w: World, id: CommandId, startedAt: int, ms: int) {
    DelayDone(w, id, ms) && w.server.table[id].startedAt == Some(startedAt)
  }

  // ---------------------------------------------------------------- delays that never complete

  lemma DoneHasDate(w: World, timed: bool, id: CommandId, startedAt: int, ms: int)
    requires Reachable(w, timed) && DoneSince(w, id, startedAt, ms)
    ensures HasDate(startedAt + ms)
  {
    ReachableInv(w, timed);
    assert RowOk(w.server, id);
    assert RowResultOk(w.server.issued, w.fetched, w.server.table[id]);
  }

  /** A delay can be completed by a claim exactly when the scheduled end that claim computes is a
      Date; otherwise the executor throws on every attempt. */
  lemma CompletableIff(startedAt: int, ms: int)
    ensures (exists w, id :: Reachable(w, true) && DoneSince(w, id, startedAt, ms)) <==>
            -8640000000000000 <= startedAt + ms <= 8640000000000000
  {
    if HasDate(startedAt + ms) {
      var w := DelayCompletes(ms, startedAt);
      assert DoneSince(w, 0, startedAt, ms);
    } else {
      forall w, id | Reachable(w, true) ensures !DoneSince(w, id, startedAt, ms) {
        if DoneSince(w, id, startedAt, ms) {
          DoneHasDate(w, true, id, startedAt, ms);
        }
      }
    }
  }

  // ---------------------------------------------------------------- not before the scheduled end

  /** In no run on time is a delay of `ms` claimed at `startedAt` completed before it has passed. */
  ghost predicate NeverEarly(startedAt: int, ms: int) {
    forall w, id | Reachable(w, true) && DoneSince(w, id, startedAt, ms) :: startedAt + ms <= w.now
  }

  lemma CompletedOnTime(w: World, id: CommandId, startedAt: int, ms: int)
    requires Reachable(w, true) && DoneSince(w, id, startedAt, ms) && ms <= MAX_TIMER_MS
    ensures startedAt + ms <= w.now
  {
    ReachableInv(w, true);
    ReachableTimeInv(w);
    assert RowOk(w.server, id);
    assert RowOnTime(w.server.issued, w.server.table[id], w.now);
  }

  /** A delay is never completed early exactly when it fits a timer, or its end is no Date and it is
      never completed at all. */
  lemma NeverEarlyIff(startedAt: int, ms: int)
    ensures NeverEarly(startedAt, ms) <==>
            ms <= 2147483647 || !(-8640000000000000 <= startedAt + ms <= 8640000000000000)
  {
    if ms <= MAX_TIMER_MS || !HasDate(startedAt + ms) {
      forall w, id | Reachable(w, true) && DoneSince(w, id, startedAt, ms) ensures startedAt + ms <= w.now {
        if ms <= MAX_TIMER_MS {
          CompletedOnTime(w, id, startedAt, ms);
        } else {
          DoneHasDate(w, true, id, startedAt, ms);
          assert false;
        }
      }
    } else {
      var w := DelayCompletes(ms, startedAt);
      assert DoneSince(w, 0, startedAt, ms);
    }
  }

  /** RESULT_SAVED on disk already means that the scheduled end has passed. */
  lemma SavedMeansElapsed(w: World, agentId: AgentId)
    requires Reachable(w, true) && agentId in w.agents && w.agents[agentId].disk.Some?
    requires var j := w.agents[agentId].disk.value;
             j.commandType == DELAY && j.stage == RESULT_SAVED && j.scheduledEndAt.Some? &&
             j.scheduledEndAt.value - j.startedAt <= MAX_TIMER_MS
    ensures w.agents[agentId].disk.value.scheduledEndAt.value <= w.now
  {
    ReachableInv(w, true);
    ReachableTimeInv(w);
    assert AgentOk(w.server.issued, w.fetches, w.fetched, agentId, w.agents[agentId]);
    assert AgentOnTime(w.server.issued, w.agents[agentId], w.now);
  }

  /** No completion report is ever sent before the scheduled end of the lease it quotes. */
  lemma ReportedOnTime(w: World, r: Report)
    requires Reachable(w, true) && r in w.reports
    ensures r.leaseId in w.server.issued
    ensures var c := w.server.issued[r.leaseId].response;
            c.payload.DelayPayload? && c.payload.ms <= MAX_TIMER_MS ==> c.startedAt + c.payload.ms <= w.now
  {
    ReachableInv(w, true);
    ReachableTimeInv(w);
    assert ReportOk(w.server.issued, w.fetched, r);
    assert EndPassed(w.server.issued[r.leaseId], w.now);
  }

  /** A DELAY that fits a timer is never woken late either: its timer is set for the very end that
      its claim fixed. */
  lemma WakesAtEnd(w: World, agentId: AgentId)
    requires Reachable(w, true) && agentId in w.agents && w.agents[agentId].pc.Waiting?
    ensures var pc := w.agents[agentId].pc;
            && pc.j.leaseId in w.server.issued && w.server.issued[pc.j.leaseId].response.payload.DelayPayload?
            && var c := w.server.issued[pc.j.leaseId].response;
            c.payload.ms <= 2147483647 ==> pc.due == c.startedAt + c.payload.ms
  {
    ReachableInv(w, true);
    ReachableTimeInv(w);
    assert AgentOk(w.server.issued, w.fetches, w.fetched, agentId, w.agents[agentId]);
    assert AgentOnTime(w.server.issued, w.agents[agentId], w.now);
  }

  // ---------------------------------------------------------------- the reported duration

  /** Every run on time that completes a delay of `ms` claimed at `startedAt` stores that duration. */
  ghost predicate AlwaysExact(startedAt: int, ms: int) {
    forall w, id | Reachable(w, true) && DoneSince(w, id, startedAt, ms) ::
      w.server.table[id].result == Some(DelayResult(true, ms))
  }

  /** The stored duration is always the requested one exactly when the scheduled end computed at
      the claim is not the instant 0, which recovery takes for a missing value. */
  lemma AlwaysExactIff(startedAt: int, ms: int)
    ensures AlwaysExact(startedAt, ms) <==> startedAt + ms != 0
  {
    if startedAt + ms != 0 {
      forall w, id | Reachable(w, true) && DoneSince(w, id, startedAt, ms)
        ensures w.server.table[id].result == Some(DelayResult(true, ms))
      {
        CompletedDelay(w, true, id);
      }
    } else {
      var w := ReplayAtZero(ms);
      assert DoneSince(w, 0, startedAt, ms);
    }
  }

  // ---------------------------------------------------------------- only while the lease is valid

  /** A completion report can arrive on time in a run and be accepted although the only lease ever
      granted for the command has run out: whatever the delay, as long as it can complete. */
  lemma AcceptedAfterExpiry(ms: int, start: int) returns (w: World, op: Op)
    requires HasDate(start + ms)
    ensures Reachable(w, true) && op.Complete? && CanStep(w, Serve(op)) && Accepted(w.server, op)
    ensures w.server.table[op.id].payload == DelayPayload(ms) && w.server.table[op.id].attempt == 1
    ensures w.server.table[op.id].leaseExpiresAt == Some(start + LEASE_MS) && start + LEASE_MS <= w.now
    ensures LEASE_MS <= ms <= MAX_TIMER_MS ==> w.now == start + ms
  {
    w := ReportComesLate(ms, start);
    op := FirstReport(ms);
  }
}
