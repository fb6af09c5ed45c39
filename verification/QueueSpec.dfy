/**
 The queue a client thinks it is talking to: every command waits, or is leased to one agent
 until some time, or is done for good. The server refines it: each accepted operation is one
 step of this queue and each refused or duplicated request is no step at all.
 */
module QueueSpec {
  import opened Commands
  import opened Server

  datatype Outcome = Succeeded(result: CommandResult) | Failed(error: string, partial: Option<CommandResult>)

  datatype Phase = Waiting | Leased(agentId: AgentId, leaseId: LeaseId, expiresAt: int) | Done(outcome: Outcome)

  datatype Job = Job(payload: Payload, createdAt: int, phase: Phase)

  type Queue = map<CommandId, Job>

  datatype Label =
    | Stutter
    | Enqueue(id: CommandId, payload: Payload, createdAt: int)
    | Lease(id: CommandId, agentId: AgentId, leaseId: LeaseId, expiresAt: int)
    | Extend(id: CommandId, leaseId: LeaseId, expiresAt: int)
    | Finish(id: CommandId, leaseId: LeaseId, outcome: Outcome)
    | Expire(now: int)

  predicate WaitingIn(q: Queue, id: CommandId) {
    id in q && q[id].phase.Waiting?
  }

  predicate LeasedIn(q: Queue, id: CommandId, leaseId: LeaseId) {
    id in q && q[id].phase.Leased? && q[id].phase.leaseId == leaseId
  }

  /** A lease that has run out puts the job back where it was; any other job is left alone. */
  predicate JobExpires(job: Job, job': Job, now: int) {
    if job.phase.Leased? && job.phase.expiresAt <= now
    then job' == job.(phase := Waiting)
    else job' == job
  }

  /** The steps of the queue. */
  ghost predicate Next(q: Queue, step: Label, q': Queue) {
    match step
    case Stutter => q' == q
    case Enqueue(id, payload, createdAt) => id !in q && q' == q[id := Job(payload, createdAt, Waiting)]
    case Lease(id, agentId, leaseId, expiresAt) =>
      && WaitingIn(q, id)
      && (forall other | WaitingIn(q, other) :: q[id].createdAt <= q[other].createdAt)
      && (forall other :: !LeasedIn(q, other, leaseId))
      && q' == q[id := q[id].(phase := Leased(agentId, leaseId, expiresAt))]
    case Extend(id, leaseId, expiresAt) =>
      && LeasedIn(q, id, leaseId)
      && q' == q[id := q[id].(phase := q[id].phase.(expiresAt := expiresAt))]
    case Finish(id, leaseId, outcome) =>
      && LeasedIn(q, id, leaseId)
      && q' == q[id := q[id].(phase := Done(outcome))]
    case Expire(now) =>
      && q'.Keys == q.Keys
      && forall id | id in q :: JobExpires(q[id], q'[id], now)
  }

  // ---------------------------------------------------------------- refinement

  ghost function JobOf(row: Row): Job
    requires RowShape(row)
  {
    Job(row.payload, row.createdAt,
        match row.status
        case PENDING => Waiting
        case RUNNING => Leased(row.agentId.value, row.leaseId.value, row.leaseExpiresAt.value)
        case COMPLETED => Done(Succeeded(row.result.value))
        case FAILED => Done(Failed(row.error.value, row.result)))
  }

  ghost function View(s: State): Queue
    requires Inv(s)
  {
    map id | id in s.table :: assert RowOk(s, id); JobOf(s.table[id])
  }

  /** The queue step an operation stands for; a report that is not accepted stands for none. */
  ghost function LabelOf(s: State, op: Op): Label {
    match op
    case Create(id, payload, now) => Enqueue(id, payload, now)
    case Claim(None, _, _, _, _) => Stutter
    case Claim(Some(id), a, l, maxLeaseMs, now) => Lease(id, a, l, now + maxLeaseMs)
    case Heartbeat(id, _, l, extendMs, now) => if Accepted(s, op) then Extend(id, l, now + extendMs) else Stutter
    case Complete(id, _, l, result) => if Accepted(s, op) then Finish(id, l, Succeeded(result)) else Stutter
    case Fail(id, _, l, error, partial) => if Accepted(s, op) then Finish(id, l, Failed(error, partial)) else Stutter
    case Restart(now) => Expire(now)
  }

  lemma ViewAt(s: State, id: CommandId)
    requires Inv(s)
    ensures id in View(s) <==> id in s.table
    ensures id in s.table ==> RowShape(s.table[id]) && View(s)[id] == JobOf(s.table[id])
  {}

  /** Writing one row is writing one job. */
  lemma ViewOfWrite(s: State, s': State, id: CommandId)
    requires Inv(s) && Inv(s') && id in s'.table && s'.table == s.table[id := s'.table[id]]
    ensures RowShape(s'.table[id]) && View(s') == View(s)[id := JobOf(s'.table[id])]
  {}

  lemma NewLeaseUnused(s: State, l: LeaseId, id: CommandId)
    requires Inv(s) && l !in s.issued
    ensures !LeasedIn(View(s), id, l)
  {
    ViewAt(s, id);
    if id in s.table {
      assert RowOk(s, id);
    }
  }

  lemma OldestWaits(s: State, id: CommandId, other: CommandId)
    requires Inv(s) && OldestPending(s.table, id)
    ensures WaitingIn(View(s), id)
    ensures WaitingIn(View(s), other) ==> View(s)[id].createdAt <= View(s)[other].createdAt
  {
    ViewAt(s, id);
    ViewAt(s, other);
    assert WaitingIn(View(s), other) ==> Pending(s.table, other);
  }

  /** A claim leases a waiting job that is oldest, under a lease no job is using. */
  lemma ClaimRefines(s: State, op: Op)
    requires Inv(s) && Legal(s, op) && op.Claim? && op.pick.Some? && Inv(Apply(s, op))
    ensures Next(View(s), LabelOf(s, op), View(Apply(s, op)))
  {
    var q, id := View(s), op.pick.value;
    forall other
      ensures !LeasedIn(q, other, op.leaseId)
      ensures WaitingIn(q, id) && (WaitingIn(q, other) ==> q[id].createdAt <= q[other].createdAt)
    {
      NewLeaseUnused(s, op.leaseId, other);
      OldestWaits(s, id, other);
    }
    ViewOfWrite(s, Apply(s, op), id);
  }

  lemma WriteRefines(s: State, op: Op)
    requires Inv(s) && Legal(s, op) && (op.Create? || (IsReport(op) && Accepted(s, op))) && Inv(Apply(s, op))
    ensures Next(View(s), LabelOf(s, op), View(Apply(s, op)))
  {
    ViewAt(s, op.id);
    ViewOfWrite(s, Apply(s, op), op.id);
  }

  lemma RestartRefines(s: State, op: Op)
    requires Inv(s) && op.Restart? && Inv(Apply(s, op))
    ensures Next(View(s), LabelOf(s, op), View(Apply(s, op)))
  {
    var s' := Apply(s, op);
    forall id | id in s.table
      ensures JobExpires(View(s)[id], View(s')[id], op.now)
    {
      ViewAt(s, id);
      ViewAt(s', id);
    }
    assert forall id | id in s.table :: JobExpires(View(s)[id], View(s')[id], op.now);
  }

  /** Every server operation is the queue step its label names. */
  lemma StepRefines(s: State, op: Op)
    requires Inv(s) && Legal(s, op)
    ensures Inv(Apply(s, op)) && Next(View(s), LabelOf(s, op), View(Apply(s, op)))
    ensures IsReport(op) ==> (LabelOf(s, op) == Stutter <==> !Accepted(s, op))
  {
    StepKeepsInv(s, op);
    if op.Claim? && op.pick.Some? {
      ClaimRefines(s, op);
    } else if op.Restart? {
      RestartRefines(s, op);
    } else if op.Create? || (IsReport(op) && Accepted(s, op)) {
      WriteRefines(s, op);
    }
  }

  /** Every run of the server is a run of the queue, from the empty queue on. */
  lemma RunRefines(ops: seq<Op>, k: nat)
    requires k < |ops| && Run(EMPTY, ops)
    ensures Inv(At(EMPTY, ops, k)) && Inv(At(EMPTY, ops, k + 1))
    ensures View(At(EMPTY, ops, 0)) == map[]
    ensures Next(View(At(EMPTY, ops, k)), LabelOf(At(EMPTY, ops, k), ops[k]), View(At(EMPTY, ops, k + 1)))
  {
    RunKeepsInv(EMPTY, ops, k);
    assert Legal(At(EMPTY, ops, k), ops[k]);
    StepRefines(At(EMPTY, ops, k), ops[k]);
  }
}
