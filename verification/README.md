# Lease-fenced command queue: a verified model

A server hands commands to agents under leases, agents execute them, keep a journal on disk, and report
back over HTTP. The guarantees the repository advertises (crash recovery, no duplicate execution, one lease
at a time) come from the server's SQL guards, the journal's write order, the executors and the recovery code
together. This project models those parts and proves what they give in every run: any number of agents and
commands, crashes of any process at any point, server restarts, I/O errors on the journal, lost, delayed and
repeated messages, and, unless a result says otherwise, clocks that read anything.

## Layout

| file | content |
|---|---|
| `Commands.dfy` | rows, payloads, results, claim responses, journals |
| `Server.dfy`, `ServerRuns.dfy` | each SQL statement or transaction as one atomic step on the table; invariant, fencing, accounting, resets over all runs |
| `CommandStore.dfy` | `CommandDatabase` and `CommandService` as objects that change rows in place, each method proved to be one step of `Server` |
| `QueueSpec.dfy` | the queue a client sees (waiting, leased, done) and the refinement to it |
| `Drain.dfy` | claim order; what claims and reports close after a restart that frees every lease |
| `ServerClient.dfy`, `KeepAlive.dfy` | the agent's requests and what it makes of the answers; why three heartbeat intervals are enough |
| `JournalFile.dfy` | temp file + rename + unlink, cut short anywhere; the journal manager |
| `AgentMachine.dfy` | one agent as a machine with a program counter and a disk |
| `AgentProcess.dfy`, `ProcessRuns.dfy` | the agent as the program it is, proved to move only along that machine; its traces are what an agent does in the runs of the whole system |
| `DelayWait.dfy`, `Heartbeats.dfy` | `waitUntil` and the heartbeat manager |
| `QueueSystem.dfy`, `SystemInv.dfy` | server, agents and network together; the inductive invariant |
| `Guarantees.dfy`, `JournalLife.dfy`, `Timing.dfy` | what holds in every run: reports, fetches, results, journals; DELAY under one monotone clock |
| `Scenarios.dfy`, `Continuations.dfy` | families of runs; what can follow in any state |
| `Boundaries.dfy`, `Expiry.dfy`, `Duplicates.dfy`, `Refetch.dfy`, `Overlap.dfy`, `Recovery.dfy` | exactly where the promises about delays, expired leases, duplicate requests, concurrent execution and recovery hold and where they stop |

Time is an integer number of milliseconds. UUIDs are numbers; their freshness is an assumption of the steps
that draw them (`Legal`). Clock readings, UUIDs, fetch results, I/O failures and HTTP answers are parameters
or nondeterministic choices. A report is "accepted" when its UPDATE changes a row, which is when the client
sees status 204. A completion report, once sent, may arrive any number of times or never. Create, claim,
heartbeat and fail requests may be made at any time with any arguments, which covers whatever the agents or
the network could do with them.

## Where the code differs from its documentation

- README.md:62 says a result is accepted "only if lease is still valid". No guard looks at the expiry
  (`queries.ts:24-51`): a lease counts until a restart resets it. `Server.AcceptedIffLive` states the rule the
  code has. `Boundaries.AcceptedAfterExpiry`: every delay that can complete has a run on time in which its report is
  accepted after the only lease ever granted for it has run out; from 30000 ms up (with that lease) this needs
  nothing but the delay itself and no heartbeat. `Expiry.AlwaysUnexpiredIff` is the exact condition on the command:
  only a DELAY that no claim can complete is never accepted late. What does keep a report in time is the schedule of
  `KeepAlive.ReportInTime`: heartbeats as paced, the report sent no later than the next one could be due, delays
  below one interval, and an initial lease of three intervals less 1 ms.
- README.md:35 says at most one agent executes a command at any time. It does not hold: an agent that overran
  its lease goes on working while another has claimed the command (`Overlap.OverlapHappens`). `Overlap.OverlapIff`
  is the exact condition: as long as no restart has reset a row whose lease is in use, a step is such a restart
  if and only if some continuation without another one has two agents executing one command. In use means that
  some agent executes under the lease, has received it and not yet saved it, has an unfinished DELAY journal for
  it on disk, or is waiting for the response that grants it. In every state only one of the two agents can
  still report (`Overlap.OverlapIsFenced`).
- README.md:34 promises no duplicate execution even after crashes. Crashes of agents alone indeed never cause a
  second outbound request: a run with r resets of a command is certain to request it only once exactly when r is 0
  (`Duplicates.OnceIff`; up to r + 1 requests do occur, `Duplicates.DuplicatesHappen`). `Refetch.RefetchIff` says
  which resets: as long as no restart has reset a row whose lease was requested for or still may be, a step is such
  a restart if and only if some continuation without another one requests a command twice.
- README.md:446 promises automatic recovery when agents crash. An agent that crashes before the result of an
  HTTP_GET_JSON command is saved drops the journal when it comes back (`Recovery.CrashLoses`), and then nothing but
  a restart of the server after the expiry frees the command, or a failure report, which agents never send:
  `Recovery.LostUntilFreed`, for any run, however long. It can still be completed then
  (`Recovery.RunningRecovers`), and a waiting command can be completed exactly when it is a fetch or its delay
  still ends within the range of Date (`Recovery.WaitingRecoversIff`).
- README.md:295 promises the remaining time after a restart. That holds within one lease; a reset clears
  `startedAt` and `scheduledEndAt` and the next claim starts the delay again (`Scenarios.DelayStartsOver`).
  `Guarantees.WaitsAgree`: two waits for one command have the same end exactly when their claims read the same
  `startedAt`.
- `computeDelayResult` tests `scheduledEndAt` for truth, so a scheduled end of 0 is taken as missing and the
  replayed duration comes from the clock. `Boundaries.AlwaysExactIff`: the stored duration is right for every run
  exactly when `startedAt + ms` is not 0. (`ms` may be negative: validation only asks for a number.)
- Before it waits, the DELAY executor logs the scheduled end with `toISOString` (`delay.ts:46`), which throws for
  anything outside the range of Date, 8640000000000000 ms to either side of 0 (ECMA-262, section 21.4.1.1). The
  journal is then deleted, so such a claim never completes its command: `Boundaries.CompletableIff`.
- `waitUntil` passes the remaining time to `setTimeout`, which the Node.js timers documentation says replaces
  any delay above 2147483647 by 1. `Boundaries.NeverEarlyIff`: a DELAY claimed at `startedAt` is never completed
  before its end exactly when `ms` is at most 2147483647, or `startedAt + ms` is outside the range of Date and it
  is never completed at all. (For a clock that is itself within that range, the latter means an end above
  8640000000000000.)
- A heartbeat answer is applied to whatever command is current when it arrives (`heartbeat.ts:39-44`), so a late
  failure can stop the heartbeats of a later command (`Heartbeats.StaleAnswerStopsHeartbeats`). No safety result
  here depends on `leaseValid`.

## Model

| member | source | states |
|---|---|---|
| Server.RunKeepsInv | packages/server/src/store/command-database.ts:28-157 | in every state of every run, for every row: which columns are NULL follows from status and type, `attempt` is the number of leases ever granted for it, and its lease, agent and times are those issued with the lease |
| Server.AcceptedIffLive | packages/server/src/store/queries.ts:24-52 | a heartbeat, complete or fail is accepted if and only if it quotes a live lease with the command and the agent it was issued for |
| Server.DeadForever | packages/server/src/store/queries.ts:24-64 | a lease that was reset, completed or failed is never live again |
| ServerRuns.LeaseEndsOnlyBy | packages/server/src/store/queries.ts:32-64 | a live lease ends if and only if its row is reset as expired or a terminal report quoting it is accepted |
| ServerRuns.Fencing | packages/server/src/service/command-service.ts:125-157 | in any run, whoever quotes a dead lease is refused and the server state does not change |
| ServerRuns.RunFreezes | packages/server/src/store/queries.ts:2-64 | id, type, payload and createdAt never change, and nothing in a terminal row ever changes |
| ServerRuns.RowsAsCreated | packages/server/src/store/queries.ts:2-5 | from the empty table: a row exists if and only if the run created its id, which it did once, and its payload and createdAt are those of that request |
| ServerRuns.GrantsAsClaimed | packages/server/src/store/command-database.ts:52-94 | from the empty table: the grants are exactly those of the claims that returned a command, each for that claim's agent and command, with expiry now + maxLeaseMs, start now, for a DELAY the end now + ms, and the payload the command was created with |
| ServerRuns.Accounting | packages/server/src/store/command-database.ts:67-76 | from the empty table: `attempt` counts claims; claims equal resets, plus one if the row is not PENDING; accepted terminal reports number one if the row is terminal and zero otherwise |
| ServerRuns.ResetsCompose | packages/server/src/store/queries.ts:53-64 | two startup recoveries equal one at the later time, with the counts adding up |
| CommandStore.CommandDatabase.CreateCommand | packages/server/src/store/command-database.ts:28-37 | inserts a PENDING row with exactly the given id, payload and createdAt, attempt 0 and every other column NULL, or fails on a duplicate primary key and changes nothing |
| CommandStore.CommandDatabase.SelectOldestPending | packages/server/src/store/queries.ts:7-12 | the loop finds some PENDING row with the least createdAt, or there is none |
| CommandStore.CommandDatabase.ClaimCommand | packages/server/src/store/command-database.ts:52-94 | the transaction is one legal claim step: it leases an oldest PENDING row or leaves everything unchanged when none exists |
| CommandStore.CommandDatabase.Heartbeat | packages/server/src/store/command-database.ts:100-110 | overwrites the expiry of the current lease, or returns false and changes nothing |
| CommandStore.CommandDatabase.CompleteCommand | packages/server/src/store/command-database.ts:116-125 | completes the row of the current lease, or returns false and changes nothing |
| CommandStore.CommandDatabase.FailCommand | packages/server/src/store/command-database.ts:131-147 | fails the row of the current lease, or returns false and changes nothing |
| CommandStore.CommandDatabase.ResetExpiredLeases | packages/server/src/store/command-database.ts:153-157 | the in-place loop equals the pointwise reset of the table and returns exactly the number of expired rows |
| CommandStore.CommandService.CreateCommand | packages/server/src/service/command-service.ts:37-66 | which error is raised for which type and payload; otherwise a PENDING row with the requested `ms` or `url` and the current time |
| CommandStore.CommandService.GetCommand | packages/server/src/service/command-service.ts:72-92 | status, result and agent of the row, or not found |
| CommandStore.CommandService.ClaimNextCommand | packages/server/src/service/command-service.ts:98-119 | the response is exactly what was granted with the new lease: the row's own payload, expiry now + maxLeaseMs, start now, and for a DELAY the end now + ms |
| CommandStore.CommandService.ResetExpiredLeases | packages/server/src/service/command-service.ts:163-166 | startup recovery is one restart step and returns the number of rows reset |
| QueueSpec.StepRefines | packages/server/src/store/command-database.ts:52-157 | every operation is one step of the waiting/leased/done queue, payloads included; a report is a stutter if and only if it is not accepted |
| QueueSpec.RunRefines | packages/server/src/store/command-database.ts:52-157 | every run of the server from the empty table is a run of that queue |
| Drain.ClaimsAreOrdered | packages/server/src/store/queries.ts:7-12 | claims without inserts or resets in between return distinct commands in non-decreasing createdAt order |
| Drain.ClaimsDrainAll | packages/server/src/store/command-database.ts:58-65 | when a claim finds nothing, exactly the commands that were PENDING have been returned |
| Drain.RoundsCloseAll | packages/server/src/index.ts:60-62 | the server's side only, with any agent and any result: after one restart no earlier than every expiry, each claim with its completion report closes one command; a further one is granted if and only if one is still open; then claims find nothing |
| KeepAlive.LeaseKeptAlive | packages/agent/src/server-client.ts:73-79 | with delays below one interval, no heartbeat lost and an initial lease of at least three intervals less 1 ms, no restart takes the lease, the expiry is always the last accepted arrival plus three intervals, and at every operation it is still to come |
| KeepAlive.ReportInTime | README.md:62 | under the same schedule a completion report sent no later than the next heartbeat could be due is accepted and arrives before the lease runs out |
| KeepAlive.ShorterLeaseIsLost | packages/agent/src/server-client.ts:15-19 | for every initial lease under that bound, a schedule within the same limits and a restart that together lose the lease |
| ServerClient.CallsArrive | packages/agent/src/server-client.ts:40-159 | each call reaches the server as the operation it is meant to be, with this agent's id, the given command, lease, result or error, and three intervals for a heartbeat |
| JournalFile.CallIsAtomic | packages/agent/src/journal.ts:53-86 | a save or delete cut short anywhere either takes effect whole or leaves what load returns unchanged; a save touches no other temporary file and leaves its own only if it stopped half-way |
| JournalFile.CrashAtomicity | packages/agent/src/journal.ts:38-86 | after any sequence of saves and deletes, each cut short by a crash or exception anywhere, load returns the last renamed journal, or nothing if a delete took effect later |
| JournalFile.JournalManager.Save | packages/agent/src/journal.ts:53-75 | succeeds if and only if all three file operations do; the disk then holds the journal and is unchanged otherwise; the temporary file is unlinked after an error if that works |
| JournalFile.JournalManager.UpdateHttpSnapshot | packages/agent/src/journal.ts:113-117 | snapshot and RESULT_SAVED are stored together or not at all |
| AgentProcess.AgentProcess.RecoverFromJournal | packages/agent/src/agent.ts:69-118 | a journal at RESULT_SAVED is reported exactly once, with its snapshot or duration; a DELAY journal at CLAIMED or IN_PROGRESS exactly once with scheduledEndAt - startedAt, if and only if its executor is registered, its end is a Date, no check of the lease fails before the timer, and the saves work; anything else is dropped unreported; no outbound request; heartbeats end stopped |
| AgentProcess.AgentProcess.RunOneIteration | packages/agent/src/agent.ts:123-183 | asks once; a claim whose journal is saved leads to exactly the report and the request that `Work` states, and otherwise nothing is sent and the disk stays as it was |
| AgentProcess.AgentProcess.Work | packages/agent/src/agent.ts:146-182 | one report of the claimed command and lease, with scheduledEndAt - startedAt or the fetched result, if and only if the executor is registered, the saves work and (DELAY) the end is a Date and no check of the lease fails before the timer; one outbound request if and only if HTTP_GET_JSON is registered and IN_PROGRESS was saved; heartbeats run before and are stopped when the report leaves |
| AgentProcess.AgentProcess.ReportCompletion | packages/agent/src/agent.ts:242-251 | sends the report exactly once and deletes the journal whatever the answer, unless unlinking fails |
| AgentProcess.AgentProcess.Start | packages/agent/src/agent.ts:188-214 | the reports and outbound requests of a process are exactly those of recovery followed by those of each polling round, in order, with one claim request per round |
| AgentProcess.AgentProcess.ExecuteDelay | packages/agent/src/executors/delay.ts:35-60 | returns end - startedAt if and only if IN_PROGRESS could be saved where it is due, the end is a Date, and no check of the lease fails before the timer; otherwise it throws; after a success the journal on disk is at IN_PROGRESS if it was at CLAIMED and as it was otherwise |
| AgentProcess.AgentProcess.ExecuteHttp | packages/agent/src/executors/http-get-json.ts:21-119 | a saved snapshot is returned without a request; otherwise one request exactly if IN_PROGRESS was saved, and its result is returned exactly if it was saved as well |
| ProcessRuns.RunIffTrace | packages/agent/src/agent.ts:69-251 | a sequence of steps is a run of the system if and only if what one agent does in it is a legal trace of the machine its program follows, the claim responses and acknowledgements it takes in are there, and everyone else's steps are possible |
| ProcessRuns.ReportsAreSent | packages/agent/src/server-client.ts:106-119 | in such a run the reports of the agent on the network are exactly those its program has sent |
| AgentProcess.CrashAnywhere | packages/agent/src/agent.ts:253-259 | the program killed at any point is again a run of the machine that keeps only the disk of that moment |
| DelayWait.Waiter.WaitUntil | packages/agent/src/executors/delay.ts:66-123 | the promise settles exactly once: at once for a past target; resolved if and only if no check before the timer finds the lease invalid, and then at the very target, or 1 ms after the start if the remaining time exceeds 2147483647 ms; else rejected at the first such check; no timer is left running |
| DelayWait.LossIsNoticed | packages/agent/src/executors/delay.ts:5-8 | once the lease is lost for good the wait ends within 1000 ms |
| Heartbeats.LeaseLostIff | packages/agent/src/heartbeat.ts:25-60 | `isLeaseValid` is false if and only if some heartbeat was answered with a failure since the last start |
| Heartbeats.FlagIsRightIff | packages/agent/src/heartbeat.ts:34-60 | for the lease served since the last start the flag says whether one of its own heartbeats has failed, exactly unless only answers about earlier leases have |
| Heartbeats.RunsIff | packages/agent/src/heartbeat.ts:25-56 | heartbeats are sent for a command and lease if and only if they were started for it and no start, stop or failed answer has come since |
| Heartbeats.NothingAfterStop | packages/agent/src/heartbeat.ts:48-56 | between a stop, or a failed answer, and the next start there is no timer and no target |
| Heartbeats.HeartbeatManager.Answered | packages/agent/src/heartbeat.ts:39-44 | a failed answer clears the flag and stops the manager, whatever it now serves |
| SystemInv.ReachableInv | packages/agent/src/agent.ts:69-251 | the invariant on rows, journals, messages, program points and fetch history holds in every reachable state of the system |
| Guarantees.ServerRunWithin | packages/server/src/service/command-service.ts:98-166 | the server's part of a system run is a run of the server alone and passes through the same states, so results about any two states of server runs carry over |
| Guarantees.RowsFrozen | packages/server/src/store/queries.ts:2-64 | between any two states of a system run no row is lost, id, payload and createdAt stay, and a terminal row stays as it is |
| Guarantees.OneTerminalReport | packages/server/src/store/queries.ts:32-52 | in every run of the system: one accepted terminal report if the command is terminal, none before; claims equal resets, plus one if it is not waiting; `attempt` counts claims |
| Guarantees.ExecutesAsCreated | packages/agent/src/agent.ts:138-156 | in every run of the system an agent starts executing with the payload of the one request that created the command |
| Guarantees.AcksAreAcceptances | packages/server/src/store/queries.ts:32-41 | in every run of the system a completion report is acknowledged if and only if the server accepted that very report |
| Guarantees.FencedForever | packages/server/src/store/queries.ts:24-64 | in every run of the system, once a lease is dead every report quoting it, replays by a recovered agent included, is refused and leaves the server unchanged |
| Guarantees.FetchesWithinAttempts | packages/agent/src/executors/http-get-json.ts:24-45 | no lease is fetched for twice, so a command is fetched at most `attempt` times |
| Guarantees.CompletedHttp | packages/agent/src/executors/http-get-json.ts:107-118 | a COMPLETED HTTP_GET_JSON row stores the result of the one fetch made under the accepted lease |
| Guarantees.CompletedDelay | packages/agent/src/executors/delay.ts:38-59 | a COMPLETED DELAY row stores the requested duration, whatever path or attempt produced it, unless its scheduled end is 0 |
| Guarantees.WaitKeepsTarget | README.md:295 | within one lease a DELAY always waits for the end fixed at its claim, however often the agent crashed and resumed |
| Guarantees.WaitsAgree | README.md:295 | two waits for one command in one run, by whichever agents, are for the same instant if and only if their claims read the same `startedAt`, in particular under one lease |
| Guarantees.JournalAgreesWithRow | packages/agent/src/agent.ts:138-141 | while a journal's lease is live, journal and row agree on command, agent, type, start and scheduled end |
| Guarantees.TrueMeansStored | packages/agent/src/server-client.ts:121-124 | when complete returns true the row is COMPLETED with this agent's own result |
| JournalLife.StageOnlyAdvances | packages/agent/src/journal.ts:88-117 | a journal on disk is followed only by itself, by itself one stage later, or by a CLAIMED journal of a newly claimed lease |
| JournalLife.StageNeverFalls | packages/agent/src/journal.ts:88-117 | over a whole run, a journal on disk at two moments is never at an earlier stage later, and one that has left the disk is gone for good |
| JournalLife.DeletedMeansSent | packages/agent/src/agent.ts:242-251 | whenever a journal at RESULT_SAVED is deleted, a completion report under its lease has been sent, with a result that lease allows |
| JournalLife.SavedBeforeSent | packages/agent/src/agent.ts:159-169 | no report is sent under a lease while its journal is at a stage before RESULT_SAVED |
| JournalLife.SpentForever | packages/agent/src/agent.ts:250-250 | once a lease's journal is deleted the agent never works under it or stores it again |
| JournalLife.SavedResultFitsType | packages/agent/src/agent.ts:82-88 | on disk HTTP_GET_JSON is at RESULT_SAVED if and only if it has a snapshot, and recovery reports a result of the command's own type |
| JournalLife.OverwriteNeedsFault | packages/agent/src/agent.ts:141-141 | a new claim overwrites another journal only if, earlier in the run, loading or deleting that agent's journal failed |
| Guarantees.AtMostOneLiveWorker | packages/server/src/store/command-database.ts:48-94 | of all agents working on one command at most one does so under a live lease |
| Boundaries.CompletableIff | packages/agent/src/executors/delay.ts:38-49 | a DELAY can be completed by a claim at startedAt if and only if startedAt + ms is in the range of Date |
| Boundaries.NeverEarlyIff | packages/agent/src/executors/delay.ts:46-121 | with one monotone clock and timers that are never early, a DELAY claimed at startedAt is never completed before startedAt + ms if and only if ms is at most 2147483647 or startedAt + ms is outside the range of Date |
| Boundaries.WakesAtEnd | packages/agent/src/executors/delay.ts:105-121 | with one monotone clock the timer of a waiting DELAY of at most 2147483647 ms is set for exactly startedAt + ms |
| Boundaries.SavedMeansElapsed | packages/agent/src/agent.ts:97-104 | under the same assumptions RESULT_SAVED on disk means the scheduled end has passed |
| Boundaries.ReportedOnTime | packages/agent/src/agent.ts:159-169 | under the same assumptions no completion report is sent before the scheduled end of its lease |
| Boundaries.AlwaysExactIff | packages/agent/src/agent.ts:232-237 | every run stores the requested duration if and only if startedAt + ms is not 0 |
| Boundaries.AcceptedAfterExpiry | README.md:62 | for every delay that can complete, a run on time in which its report is accepted after its first and only lease has run out; if the delay is between the lease and 2147483647 ms, right when it is done |
| Scenarios.DelayStartsOver | README.md:295 | for every positive delay a run on time in which a reset and a second claim move the end of the wait by the length of the lease |
| Duplicates.OnceIff | README.md:34 | every run on time with r resets of a command makes at most one request for it if and only if r is 0 |
| Refetch.OncePerCommand | README.md:34 | in a run in which no restart resets a row whose lease was requested for or may still be, every command is requested at most once, however often agents crash |
| Refetch.RefetchFollows | packages/server/src/store/queries.ts:53-64 | after such a restart, from any reachable state, quiet steps lead to a second request by any agent |
| Refetch.RefetchIff | README.md:34 | as long as no such restart has happened, a step is one if and only if a continuation without another one requests a command twice |
| Expiry.AlwaysUnexpiredIff | README.md:62 | for a claim of a command at startedAt, the reports accepted in runs on time always come before the expiry if and only if it is a DELAY with startedAt + ms outside the range of Date |
| Recovery.WaitingRecoversIff | README.md:26 | in every reachable state of a run on time with at least one agent, a waiting command is completed by some continuation if and only if it is a fetch, or its delay counted from now ends within the range of Date |
| Recovery.RunningRecovers | packages/server/src/store/queries.ts:53-64 | a running command, whatever became of its agent, is completed by some continuation if it is a fetch, or its delay counted from the later of now and its expiry ends within the range of Date |
| Recovery.CrashLoses | packages/agent/src/agent.ts:113-117 | from every reachable state with an unfinished HTTP_GET_JSON journal of a live lease, a crash and the recovery code lead to a lease that is live but held, reported and to be delivered nowhere |
| Recovery.LostUntilFreed | README.md:446 | over any run the command of such a lease stays RUNNING under it if and only if no restart has reset it and no failure report for it was accepted |
| Overlap.OneAtATime | README.md:35 | in a run in which no restart resets a row whose lease is in use, no two agents ever execute the same command |
| Overlap.OverlapFollows | packages/server/src/store/queries.ts:53-64 | after a restart that does, from any reachable state, for any second agent, both come to execute the command without further restart, time passing or I/O error |
| Overlap.OverlapIff | README.md:35 | as long as no such restart has happened, a step is one if and only if a continuation without another one has two agents executing one command |
| Overlap.OverlapHappens | README.md:35 | for every delay, two agents can execute it at the same time even with clocks and timers in order |
| Overlap.OverlapIsFenced | packages/server/src/store/queries.ts:32-41 | when they do, their leases differ and at most one of them is live |

## Left out

- Express routing, middleware, request field validation and error bodies: plumbing around the service calls.
- SQLite itself: each statement or transaction is taken as atomic and durable; types, indexes and WAL are not modelled.
- JSON encoding of payloads, results and journals: a lossless pair; a payload keeps only the field its type needs.
- The inside of the HTTP fetch (redirects, abort timer, truncation, JSON fallback): one step with an arbitrary result.
- Non-integer and non-finite numbers, and integers beyond 2^53, for `ms`, `maxLeaseMs` and `extendMs`.
- Claim requests tied to a connection: a request served only after its agent has sent the next one is answered to the newer one.
- fsync: only process crashes are covered, as in the code.
- `AgentImpl.stop`, `killAfterSeconds` and random failures: a process exit is a crash step, possible at every point.
- Two processes sharing one agent id or state directory: agent ids are distinct.
- The interleaving of heartbeat callbacks with the executor: in `AgentProcess` the lease check may answer anything at any time.
- `fail` as a step of an agent: `AgentImpl` never calls it; the server model and the network have it.
- Liveness under real schedulers: recoverability (`Recovery.WaitingRecoversIff`) and what prevents it (`Recovery.LostUntilFreed`) are proved instead.
- DI containers, loggers, configuration parsing, startup scripts, Docker.
