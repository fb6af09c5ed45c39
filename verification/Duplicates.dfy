/**
 How often one HTTP_GET_JSON command can be executed: at most once more than its lease was reset,
 and that many times indeed.
 */
module Duplicates {
  import opened Commands
  import opened Server
  import opened ServerRuns
  import opened AgentMachine
  import opened QueueSystem
  import opened SystemInv
  import opened Guarantees
  import opened Scenarios
  import Drain

  /** Crashes alone never duplicate an outbound request: in every run a command is fetched at most
      once, plus once per restart that reset it. */
  lemma DuplicatesNeedResets(w: World, steps: seq<Step>, timed: bool, k: nat, id: CommandId)
    requires Behavior(w, steps, timed) && k <= |steps|
    ensures var now, ops := WorldAt(w, steps, k), OpsOf(steps, k);
            FetchesFor(now.server.issued, now.fetches, id, |now.fetches|) <= ResetCount(EMPTY, ops, |ops|, id) + 1
  {
    var now := WorldAt(w, steps, k);
    BehaviorKeepsSysInv(w, steps, timed, k);
    OneTerminalReport(w, steps, timed, k, id);
    var leases := FetchedLeases(now.server.issued, now.fetches, id, |now.fetches|);
    SubsetIsSmaller(leases, GrantsOf(now.server.issued, id));
    if id in now.server.table {
      assert RowOk(now.server, id);
    } else {
      NoGrantForNewId(now.server, id);
    }
  }

  // ---------------------------------------------------------------- the bound is reached

  /** New grants and new requests do not change the count of the earlier ones. */
  lemma {:induction false} CountStays(issued: Issued, more: Issued, fetches: seq<LeaseId>, l: LeaseId,
                                      id: CommandId, n: nat)
    requires n <= |fetches| && Extends(issued, more) && forall m | m in fetches :: m in issued
    ensures FetchesFor(more, fetches, id, n) == FetchesFor(issued, fetches, id, n)
    ensures FetchesFor(more, fetches + [l], id, n) == FetchesFor(issued, fetches, id, n)
  {
    if n > 0 {
      CountStays(issued, more, fetches, l, id, n - 1);
      assert fetches[n - 1] in fetches;
    }
  }

  function FetchCount(w: World): nat {
    FetchesFor(w.server.issued, w.fetches, 0, |w.fetches|)
  }

  /** Command 0 is the only one, and agent 0 has nothing to do; n attempts have been made, each with
      its own request. */
  ghost predicate Waits(w: World, url: string, n: nat) {
    && Reachable(w, true) && w.server.table.Keys == {0} && w.server.table[0].status == PENDING
    && w.server.table[0].payload == HttpGetJsonPayload(url) && w.server.table[0].attempt == n
    && 0 in w.agents && w.agents[0] == Agent(Idle, None) && FetchCount(w) == n
  }

  lemma Starts(url: string, start: int) returns (w: World)
    ensures Waits(w, url, 0)
  {
    w := Pair(EMPTY, ASLEEP, ASLEEP, {}, start);
    StartReachable(w, true);
    hide Reachable;
    w := Served(w, Create(0, HttpGetJsonPayload(url), start), true);
    w := Moved(w, 0, Boot, true);
    w := Moved(w, 0, LoadEmpty, true);
  }

  /** The command runs under lease `l`, and agent 0 is at this point of it. */
  predicate Runs(w: World, url: string, n: nat, l: LeaseId, pc: Pc, disk: Option<Journal>) {
    && w.server.table.Keys == {0} && l in w.server.issued
    && var row := w.server.table[0];
    && row.status == RUNNING && row.payload == HttpGetJsonPayload(url) && row.attempt == n
    && row.leaseId == Some(l) && row.leaseExpiresAt.Some?
    && w.server.issued[l].response.commandId == 0
    && 0 in w.agents && w.agents[0] == Agent(pc, disk)
  }

  lemma GrantsHttp(s: State, url: string, op: Op)
    requires Server.Inv(s) && Legal(s, op) && op.Claim? && op.pick == Some(0)
    requires s.table.Keys == {0} && s.table[0].payload == HttpGetJsonPayload(url)
    ensures var s', l := Apply(s, op), op.leaseId;
            && Extends(s.issued, s'.issued) && l in s'.issued && s'.issued[l].agentId == op.agentId
            && var c := s'.issued[l].response;
            && c.commandId == 0 && c.leaseId == l && c.payload == HttpGetJsonPayload(url)
            && s'.table == map[0 := ClaimRow(s.table[0], op.agentId, l, op.maxLeaseMs, op.now)]
  {
    assert RowOk(s, 0);
  }

  lemma GrantedHttp(w: World, url: string, n: nat) returns (w': World, c: ClaimResponse)
    requires Waits(w, url, n)
    ensures Reachable(w', true) && Runs(w', url, n + 1, c.leaseId, Claiming, None) && Delivery(0, c) in w'.responses
    ensures c.commandId == 0 && c.payload == HttpGetJsonPayload(url)
    ensures w'.fetches == w.fetches && Extends(w.server.issued, w'.server.issued)
  {
    ReachableInv(w, true);
    assert Server.Inv(w.server);
    hide Reachable, SysInv;
    var l := Drain.UnusedLease(w.server.issued.Keys);
    var op := Claim(Some(0), 0, l, LEASE_MS, w.now);
    assert OldestPending(w.server.table, 0);
    GrantsHttp(w.server, url, op);
    hide Server.Inv, Apply, Legal;
    w' := Moved(w, 0, SendClaim, true);
    w' := Served(w', op, true);
    c := w'.server.issued[l].response;
  }

  lemma ClaimsHttp(w: World, url: string, n: nat) returns (w': World, c: ClaimResponse)
    requires Waits(w, url, n)
    ensures Reachable(w', true) && Runs(w', url, n + 1, c.leaseId, Claimed(c), None)
    ensures c.commandId == 0 && c.payload == HttpGetJsonPayload(url)
    ensures w'.fetches == w.fetches && Extends(w.server.issued, w'.server.issued)
  {
    hide Reachable;
    w', c := GrantedHttp(w, url, n);
    w' := Received(w', 0, c, true);
  }

  lemma Requests(w: World, url: string, n: nat, c: ClaimResponse) returns (w': World, j: Journal)
    requires Reachable(w, true) && Runs(w, url, n, c.leaseId, Claimed(c), None)
    requires c.payload == HttpGetJsonPayload(url) && c.commandId == 0
    ensures Reachable(w', true) && Runs(w', url, n, c.leaseId, AwaitingFetch(j), Some(j))
    ensures j.commandType == HTTP_GET_JSON && j.stage == IN_PROGRESS
    ensures w'.server == w.server && w'.fetches == w.fetches + [c.leaseId]
  {
    hide Reachable;
    w' := Moved(w, 0, SaveClaimed, true);
    w' := Moved(w', 0, StartWork, true);
    w' := Moved(w', 0, SendFetch, true);
    j := w'.agents[0].pc.j;
  }

  /** One attempt up to the point where its request is under way. */
  lemma AttemptsOnce(w: World, url: string, n: nat) returns (w': World, l: LeaseId, j: Journal)
    requires Waits(w, url, n)
    ensures Reachable(w', true) && Runs(w', url, n + 1, l, AwaitingFetch(j), Some(j))
    ensures j.commandType == HTTP_GET_JSON && j.stage == IN_PROGRESS && FetchCount(w') == n + 1
  {
    ReachableInv(w, true);
    assert FetchInv(w);
    hide Reachable, SysInv;
    var c;
    w', c := ClaimsHttp(w, url, n);
    l := c.leaseId;
    w', j := Requests(w', url, n + 1, c);
    CountStays(w.server.issued, w'.server.issued, w.fetches, l, 0, |w.fetches|);
    assert w'.fetches[|w.fetches|] == l;
  }

  lemma DropsJournal(w: World, j: Journal) returns (w': World)
    requires Reachable(w, true) && 0 in w.agents && w.agents[0] == Agent(AwaitingFetch(j), Some(j))
    requires j.commandType == HTTP_GET_JSON && j.stage == IN_PROGRESS
    ensures Reachable(w', true) && w'.server == w.server && w'.now == w.now && w'.fetches == w.fetches
    ensures 0 in w'.agents && w'.agents[0] == Agent(Idle, None)
  {
    hide Reachable;
    w' := Restarted(w, 0, true);
    w' := Moved(w', 0, DeleteJournal, true);
  }

  /** The agent crashes before the answer is saved, drops the journal, and the lease runs out. */
  lemma LosesAttempt(w: World, url: string, n: nat, l: LeaseId, j: Journal) returns (w': World)
    requires Reachable(w, true) && Runs(w, url, n, l, AwaitingFetch(j), Some(j)) && FetchCount(w) == n
    requires j.commandType == HTTP_GET_JSON && j.stage == IN_PROGRESS
    ensures Waits(w', url, n)
  {
    hide Reachable, FetchesFor;
    w' := DropsJournal(w, j);
    var end := w.server.table[0].leaseExpiresAt.value;
    w' := Ticked(w', if w.now < end then end else w.now, true);
    w' := Served(w', Restart(w'.now), true);
    assert FetchCount(w') == FetchCount(w);
  }

  lemma {:induction false} AttemptsLost(url: string, start: int, n: nat) returns (w: World)
    ensures Waits(w, url, n)
  {
    if n == 0 {
      w := Starts(url, start);
    } else {
      w := AttemptsLost(url, start, n - 1);
      var l, j;
      w, l, j := AttemptsOnce(w, url, n - 1);
      w := LosesAttempt(w, url, n, l, j);
    }
  }

  /** Restarts in the run that reset the command, and requests made for it. */
  function ResetsIn(steps: seq<Step>, id: CommandId): nat {
    ResetCount(EMPTY, OpsOf(steps, |steps|), |OpsOf(steps, |steps|)|, id)
  }

  function RequestsIn(w: World, steps: seq<Step>, id: CommandId): nat {
    var end := WorldAt(w, steps, |steps|);
    FetchesFor(end.server.issued, end.fetches, id, |end.fetches|)
  }

  /** For every n a run on time makes n + 1 requests for a command that is running its attempt
      n + 1, after n resets. From n = 1 on this is what README.md:34 rules out. */
  lemma DuplicatesHappen(url: string, start: int, n: nat) returns (w: World)
    ensures Reachable(w, true) && w.server.table.Keys == {0} && w.server.table[0].status == RUNNING
    ensures w.server.table[0].payload == HttpGetJsonPayload(url) && w.server.table[0].attempt == n + 1
    ensures FetchesFor(w.server.issued, w.fetches, 0, |w.fetches|) == n + 1
    ensures forall origin, steps | EndsIn(origin, steps, true, w) :: ResetsIn(steps, 0) == n
  {
    w := AttemptsLost(url, start, n);
    var l, j;
    w, l, j := AttemptsOnce(w, url, n);
    forall origin, steps | EndsIn(origin, steps, true, w) ensures ResetsIn(steps, 0) == n {
      OneTerminalReport(origin, steps, true, |steps|, 0);
    }
  }

  /** Every run on time with this many resets of a command makes at most one request for it. */
  ghost predicate OnceAfter(resets: nat) {
    forall w, steps, id | Behavior(w, steps, true) && ResetsIn(steps, id) == resets :: RequestsIn(w, steps, id) <= 1
  }

  /** No duplicate is certain only as long as nothing was reset. */
  lemma OnceIff(resets: nat)
    ensures OnceAfter(resets) <==> resets == 0
  {
    if resets == 0 {
      forall w, steps, id | Behavior(w, steps, true) && ResetsIn(steps, id) == 0 ensures RequestsIn(w, steps, id) <= 1 {
        DuplicatesNeedResets(w, steps, true, |steps|, id);
      }
    } else {
      var end := DuplicatesHappen("", 0, resets);
      var w, steps :| EndsIn(w, steps, true, end);
      assert RequestsIn(w, steps, 0) == resets + 1 && ResetsIn(steps, 0) == resets;
    }
  }
}
