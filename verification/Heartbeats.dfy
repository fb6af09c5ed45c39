/**
 The heartbeat manager: a timer that sends heartbeats for one lease, and a flag that any failed
 heartbeat clears. The callback reads `this` again after its await, so an answer that belongs
 to an earlier command acts on the current one.
 */
module Heartbeats {
  import opened Commands

  datatype Target = Target(commandId: CommandId, leaseId: LeaseId)

  /** `timer` is set while the interval runs; `current` is the command and lease it serves. */
  datatype Manager = Manager(timer: bool, current: Option<Target>, leaseValid: bool)

  const FRESH := Manager(false, None, true)

  datatype Event =
    | Start(target: Target)
    | Stop
    | Tick                                // the interval fires; a heartbeat leaves if there is a target
    | Answer(about: Target, success: bool) // the answer to some earlier heartbeat, after the await

  function Next(m: Manager, e: Event): Manager {
    match e
    case Start(target) => Manager(true, Some(target), true)
    case Stop => Manager(false, None, m.leaseValid)
    case Tick => m
    case Answer(_, success) => if success then m else Manager(false, None, false)
  }

  function After(m: Manager, events: seq<Event>, k: nat): Manager
    requires k <= |events|
  {
    if k == 0 then m else Next(After(m, events, k - 1), events[k - 1])
  }

  /** No Start follows position i. */
  ghost predicate SinceLastStart(events: seq<Event>, i: nat, k: nat)
    requires i <= k <= |events|
  {
    forall n | i <= n < k :: !events[n].Start?
  }

  ghost predicate FailedSinceStart(events: seq<Event>, k: nat)
    requires k <= |events|
  {
    exists i | 0 <= i < k :: Failure(events[i]) && SinceLastStart(events, i, k)
  }

  predicate Failure(e: Event) {
    e.Answer? && !e.success
  }

  /** The lease counts as lost exactly when some heartbeat, of whichever command, was answered with
      a failure since the last start. */
  lemma {:induction false} LeaseLostIff(events: seq<Event>, k: nat)
    requires k <= |events|
    ensures !After(FRESH, events, k).leaseValid <==> FailedSinceStart(events, k)
  {
    if k > 0 {
      LeaseLostIff(events, k - 1);
      var e := events[k - 1];
      if Failure(e) {
        assert SinceLastStart(events, k - 1, k);
      } else if !e.Start? && FailedSinceStart(events, k - 1) {
        var i :| 0 <= i < k - 1 && Failure(events[i]) && SinceLastStart(events, i, k - 1);
        assert SinceLastStart(events, i, k);
      } else if FailedSinceStart(events, k) {
        var i :| 0 <= i < k && Failure(events[i]) && SinceLastStart(events, i, k);
        assert SinceLastStart(events, i, k - 1);
      }
    }
  }

  /** A heartbeat about this target was answered with a failure after position s. */
  ghost predicate FailedAbout(events: seq<Event>, s: nat, k: nat, target: Target)
    requires k <= |events|
  {
    exists i | s < i < k :: Failure(events[i]) && events[i].about == target
  }

  ghost predicate FailedAboutOther(events: seq<Event>, s: nat, k: nat, target: Target)
    requires k <= |events|
  {
    exists i | s < i < k :: Failure(events[i]) && events[i].about != target
  }

  /** For the lease served since the last start, at position s, the flag says whether one of its own
      heartbeats has failed, exactly unless only answers about earlier targets have. */
  lemma FlagIsRightIff(events: seq<Event>, s: nat, k: nat, target: Target)
    requires s < k <= |events| && events[s] == Start(target) && SinceLastStart(events, s + 1, k)
    ensures (!After(FRESH, events, k).leaseValid <==> FailedAbout(events, s, k, target)) <==>
            (FailedAboutOther(events, s, k, target) ==> FailedAbout(events, s, k, target))
  {
    LeaseLostIff(events, k);
    if FailedSinceStart(events, k) {
      var i :| 0 <= i < k && Failure(events[i]) && SinceLastStart(events, i, k);
      assert i > s;
    } else {
      forall i | s < i < k ensures !Failure(events[i]) {
        assert SinceLastStart(events, i, k);
      }
    }
  }

  /** The event ends what was started before it. */
  predicate Ender(e: Event) {
    e.Start? || e.Stop? || Failure(e)
  }

  ghost predicate RunsSince(events: seq<Event>, i: nat, k: nat, target: Target)
    requires i < k <= |events|
  {
    events[i] == Start(target) && forall n | i < n < k :: !Ender(events[n])
  }

  /** The manager sends heartbeats for a target exactly if it was started for it, and nothing has
      started, stopped or failed since: the timer and the target always go together. */
  lemma {:induction false} RunsIff(events: seq<Event>, k: nat, target: Target)
    requires k <= |events|
    ensures After(FRESH, events, k).timer <==> After(FRESH, events, k).current.Some?
    ensures After(FRESH, events, k).current == Some(target) <==>
            exists i | 0 <= i < k :: RunsSince(events, i, k, target)
  {
    if k > 0 {
      RunsIff(events, k - 1, target);
      if events[k - 1] == Start(target) {
        assert RunsSince(events, k - 1, k, target);
      } else if !Ender(events[k - 1]) && After(FRESH, events, k - 1).current == Some(target) {
        var i :| 0 <= i < k - 1 && RunsSince(events, i, k - 1, target);
        assert RunsSince(events, i, k, target);
      } else if exists i | 0 <= i < k :: RunsSince(events, i, k, target) {
        var i :| 0 <= i < k && RunsSince(events, i, k, target);
        assert i < k - 1 && RunsSince(events, i, k - 1, target);
      }
    }
  }

  /** Between a stop, or a failed answer, and the next start nothing is sent. */
  lemma {:induction false} NothingAfterStop(events: seq<Event>, s: nat, k: nat)
    requires s < k <= |events| && (events[s].Stop? || Failure(events[s])) && SinceLastStart(events, s, k)
    ensures !After(FRESH, events, k).timer && After(FRESH, events, k).current == None
  {
    if s < k - 1 {
      assert SinceLastStart(events, s, k - 1);
      NothingAfterStop(events, s, k - 1);
    }
  }

  /** An answer about an earlier command takes the current one's lease for lost and stops its
      heartbeats, although none of its own has failed. */
  lemma StaleAnswerStopsHeartbeats(m: Manager, earlier: Target, current: Target)
    requires earlier != current
    ensures var events := [Start(earlier), Tick, Stop, Start(current), Answer(earlier, false)];
            && After(m, events, 4) == Manager(true, Some(current), true)
            && After(m, events, 5) == Manager(false, None, false)
            && forall i | 0 <= i < 5 && Failure(events[i]) :: events[i].about != current
  {}

  /** The object the agent uses. The callback is split at its await into Fire and Answered. */
  class HeartbeatManager {
    var timerId: bool
    var current: Option<Target>
    var leaseValid: bool

    ghost function State(): Manager
      reads this
    {
      Manager(timerId, current, leaseValid)
    }

    constructor ()
      ensures State() == FRESH
    {
      timerId, current, leaseValid := false, None, true;
    }

    method Start(commandId: CommandId, leaseId: LeaseId)
      modifies this
      ensures State() == Next(old(State()), Event.Start(Target(commandId, leaseId)))
    {
      Stop();
      current := Some(Target(commandId, leaseId));
      leaseValid := true;
      timerId := true;
    }

    method Stop()
      modifies this
      ensures State() == Next(old(State()), Event.Stop)
    {
      if timerId {
        timerId := false;
      }
      current := None;
    }

    /** Up to the await: the heartbeat to send, if any. */
    method Fire() returns (sent: Option<Target>)
      ensures sent == current && State() == Next(State(), Tick)
    {
      if current == None {
        return None;
      }
      sent := current;
    }

    /** From the await on, whatever became of the manager meanwhile. */
    method Answered(about: Target, success: bool)
      modifies this
      ensures State() == Next(old(State()), Answer(about, success))
    {
      if !success {
        leaseValid := false;
        Stop();
      }
    }

    method IsLeaseValid() returns (valid: bool)
      ensures valid == State().leaseValid
    {
      valid := leaseValid;
    }
  }
}
