/**
 Why the agent asks for three heartbeat intervals each time: with one-way delays below one
 interval H and no heartbeat lost, the lease is always extended before it can expire, so no
 server restart takes the command away and the final report comes in time. The bound on the
 initial lease is exact.
 */
module KeepAlive {
  import opened Commands
  import opened Server
  import opened ServerClient

  /** The claim is served at `claimedAt`; the agent starts its heartbeat timer at `startedAt`;
      heartbeat n leaves at sent[n] and reaches the server delay[n] later. */
  datatype Schedule = Schedule(config: Config, claimedAt: int, startedAt: int, sent: seq<int>, delay: seq<int>)
  {
    function Arrival(n: nat): int
      requires n < |sent| == |delay|
    {
      sent[n] + delay[n]
    }

    /** Delays stay below one interval. The timer fires one interval after it is started, later
        ticks come one interval apart and may be late by up to another interval. */
    ghost predicate Paced() {
      var intervalMs := config.heartbeatIntervalMs;
      && 0 < intervalMs && |sent| == |delay|
      && claimedAt <= startedAt < claimedAt + intervalMs
      && (forall n | 0 <= n < |delay| :: 0 <= delay[n] < intervalMs)
      && (|sent| > 0 ==> sent[0] == startedAt + intervalMs)
      && (forall n | 0 < n < |sent| :: sent[n - 1] + intervalMs <= sent[n] <= sent[n - 1] + 2 * intervalMs)
    }
  }

  /** The lease asked for at the claim covers three intervals, short of one millisecond. */
  predicate LongEnough(config: Config) {
    config.maxLeaseMs >= 3 * config.heartbeatIntervalMs - 1
  }

  /** When the lease runs out if n heartbeats have been accepted. */
  function ExpiryAfter(sch: Schedule, n: nat): int
    requires n <= |sch.sent| == |sch.delay|
  {
    if n == 0 then sch.claimedAt + sch.config.maxLeaseMs
    else sch.Arrival(n - 1) + 3 * sch.config.heartbeatIntervalMs
  }

  /** The latest time at which a further heartbeat could be due after the last one sent. */
  function LastDue(sch: Schedule): int {
    if sch.sent == [] then sch.startedAt + sch.config.heartbeatIntervalMs
    else sch.sent[|sch.sent| - 1] + 2 * sch.config.heartbeatIntervalMs
  }

  /** Until when things can happen with n heartbeats accepted: until the next one arrives; after the
      last, until a message sent no later than a further one could be due has arrived. */
  predicate InTime(sch: Schedule, n: nat, time: int)
    requires n <= |sch.sent| == |sch.delay|
  {
    if n < |sch.sent| then time <= sch.Arrival(n) else time < LastDue(sch) + sch.config.heartbeatIntervalMs
  }

  /** Whatever comes in time comes while the lease still runs. */
  lemma ArrivesInTime(sch: Schedule, n: nat, time: int)
    requires sch.Paced() && n <= |sch.sent|
    requires LongEnough(sch.config) && InTime(sch, n, time)
    ensures time < ExpiryAfter(sch, n)
  {}

  /** Heartbeats quoting the lease among the first k operations. */
  function Beats(ops: seq<Op>, k: nat, l: LeaseId): nat
    requires k <= |ops|
  {
    if k == 0 then 0 else Beats(ops, k - 1, l) + if ops[k - 1].Heartbeat? && ops[k - 1].leaseId == l then 1 else 0
  }

  /** What the server sees until the agent's report: any operations of anyone, with the heartbeats of
      this lease arriving as scheduled and no terminal report for it. */
  ghost predicate Observed(sch: Schedule, g: Grant, ops: seq<Op>, times: seq<int>)
    requires sch.Paced()
  {
    && |times| == |ops|
    && forall k {:trigger OnTime(sch, g, ops[k], times[k], Beats(ops, k, g.response.leaseId))} | 0 <= k < |ops| ::
         OnTime(sch, g, ops[k], times[k], Beats(ops, k, g.response.leaseId))
  }

  ghost predicate OnTime(sch: Schedule, g: Grant, op: Op, time: int, n: nat)
    requires sch.Paced()
  {
    && n <= |sch.sent| && sch.claimedAt <= time && InTime(sch, n, time)
    && (op.Restart? ==> op.now == time)
    && ((op.Complete? || op.Fail?) ==> op.leaseId != g.response.leaseId)
    && (op.Heartbeat? && op.leaseId == g.response.leaseId ==>
          && n < |sch.sent| && time == sch.Arrival(n) && sch.config.agentId == g.agentId
          && op == Arriving(HeartbeatCall(sch.config, g.response.commandId, op.leaseId), time))
  }

  /** The command runs under the granted lease and its expiry is this. */
  predicate HeldUntil(s: State, g: Grant, expiry: int) {
    && Current(s.table, g.response.commandId, g.agentId, g.response.leaseId)
    && s.table[g.response.commandId].leaseExpiresAt == Some(expiry)
  }

  lemma ClaimStartsLease(s: State, op: Op, config: Config)
    requires Legal(s, op) && op.Claim? && op.pick.Some? && Inv(s)
    requires ClaimCall(config) == ClaimRequest(op.agentId, op.maxLeaseMs)
    ensures HeldUntil(Apply(s, op), Apply(s, op).issued[op.leaseId], op.now + config.maxLeaseMs)
  {
    assert RowOk(s, op.pick.value);
  }

  lemma StepKeepsLease(s: State, sch: Schedule, g: Grant, op: Op, time: int, n: nat)
    requires sch.Paced() && LongEnough(sch.config)
    requires Legal(s, op) && OnTime(sch, g, op, time, n)
    requires HeldUntil(s, g, ExpiryAfter(sch, n))
    ensures var beat := op.Heartbeat? && op.leaseId == g.response.leaseId;
            HeldUntil(Apply(s, op), g, ExpiryAfter(sch, if beat then n + 1 else n))
  {
    ArrivesInTime(sch, n, time);
  }

  /** The lease survives everything the server does, restarts included, its expiry is always the
      last accepted arrival plus three intervals, and it has not run out at any operation. */
  lemma {:induction false} LeaseKeptAlive(s: State, sch: Schedule, g: Grant,
                                          ops: seq<Op>, times: seq<int>, k: nat)
    requires sch.Paced() && LongEnough(sch.config)
    requires Run(s, ops) && Observed(sch, g, ops, times) && k <= |ops|
    requires HeldUntil(s, g, sch.claimedAt + sch.config.maxLeaseMs)
    ensures Beats(ops, k, g.response.leaseId) <= |sch.sent|
    ensures HeldUntil(At(s, ops, k), g, ExpiryAfter(sch, Beats(ops, k, g.response.leaseId)))
    ensures k < |ops| ==> times[k] < ExpiryAfter(sch, Beats(ops, k, g.response.leaseId))
  {
    if k < |ops| {
      assert OnTime(sch, g, ops[k], times[k], Beats(ops, k, g.response.leaseId));
      ArrivesInTime(sch, Beats(ops, k, g.response.leaseId), times[k]);
    }
    if k > 0 {
      LeaseKeptAlive(s, sch, g, ops, times, k - 1);
      var t, n := At(s, ops, k - 1), Beats(ops, k - 1, g.response.leaseId);
      assert Legal(t, ops[k - 1]);
      assert OnTime(sch, g, ops[k - 1], times[k - 1], n);
      StepKeepsLease(t, sch, g, ops[k - 1], times[k - 1], n);
    }
  }

  /** A completion report sent no later than the next heartbeat could be due, and delayed less than
      one interval, is accepted, and the lease has not run out. */
  lemma ReportInTime(s: State, sch: Schedule, g: Grant, ops: seq<Op>, times: seq<int>, sentAt: int, delay: int,
                     result: CommandResult)
    requires sch.Paced() && LongEnough(sch.config)
    requires Run(s, ops) && Observed(sch, g, ops, times)
    requires HeldUntil(s, g, sch.claimedAt + sch.config.maxLeaseMs)
    requires sch.config.agentId == g.agentId && sentAt <= LastDue(sch) && delay < sch.config.heartbeatIntervalMs
    requires Beats(ops, |ops|, g.response.leaseId) < |sch.sent| ==>
               sentAt + delay <= sch.Arrival(Beats(ops, |ops|, g.response.leaseId))
    ensures var t, id := At(s, ops, |ops|), g.response.commandId;
            var r := CompleteCall(sch.config, id, g.response.leaseId, result);
            && Accepted(t, Arriving(r, sentAt + delay))
            && t.table[id].leaseExpiresAt.Some? && sentAt + delay < t.table[id].leaseExpiresAt.value
  {
    LeaseKeptAlive(s, sch, g, ops, times, |ops|);
    ArrivesInTime(sch, Beats(ops, |ops|, g.response.leaseId), sentAt + delay);
  }

  /** One millisecond less of initial lease and the promise fails: a schedule within the bounds,
      and a restart just as its first heartbeat arrives, cost the agent its lease. */
  lemma ShorterLeaseIsLost(s: State, g: Grant, config: Config, claimedAt: int)
    returns (sch: Schedule, ops: seq<Op>, times: seq<int>)
    requires 0 < config.heartbeatIntervalMs && !LongEnough(config)
    requires HeldUntil(s, g, claimedAt + config.maxLeaseMs)
    ensures sch.Paced() && sch.config == config && sch.claimedAt == claimedAt
    ensures Run(s, ops) && Observed(sch, g, ops, times)
    ensures !Current(At(s, ops, |ops|).table, g.response.commandId, g.agentId, g.response.leaseId)
  {
    var intervalMs := config.heartbeatIntervalMs;
    var startedAt := claimedAt + intervalMs - 1;
    sch := Schedule(config, claimedAt, startedAt, [startedAt + intervalMs], [intervalMs - 1]);
    var now := sch.Arrival(0);
    ops, times := [Restart(now)], [now];
    assert OnTime(sch, g, ops[0], times[0], Beats(ops, 0, g.response.leaseId));
    assert At(s, ops, 1) == Apply(At(s, ops, 0), ops[0]);
  }
}
