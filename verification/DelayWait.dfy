/**
 waitUntil of the DELAY executor: one timer for the target time, and a lease check every second.
 Timers fire on time here; `leaseValid` is the answer checkLeaseValid would give at each instant.
 */
module DelayWait {
  import opened Commands
  import opened AgentMachine

  const LEASE_CHECK_INTERVAL_MS := 1000

  datatype Outcome = Resolved(at: int) | Rejected(at: int)

  /** When the timer of a wait that starts at `now` fires: at the target, or after 1 ms if the time to
      it is more than a timer can hold. */
  function FiresAt(now: int, target: int): int {
    if target - now <= 2147483647 then target else now + 1
  }

  function CheckTime(now: int, n: nat): int {
    now + 1000 * n
  }

  /** The lease was valid at the first n checks. */
  ghost predicate ValidThrough(now: int, n: nat, leaseValid: int -> bool) {
    forall i | 1 <= i <= n :: leaseValid(CheckTime(now, i))
  }

  /** How the wait that starts at `now` may end. A past target resolves at once; otherwise the
      first check that finds the lease invalid rejects, if it comes before the timer, and else the
      timer resolves. When both fall on the same instant either may come first. */
  ghost predicate Ends(now: int, target: int, leaseValid: int -> bool, o: Outcome) {
    if target <= now then o == Resolved(now)
    else match o
         case Resolved(at) =>
           && at == FiresAt(now, target)
           && forall i: nat | 1 <= i && CheckTime(now, i) < at :: leaseValid(CheckTime(now, i))
         case Rejected(at) =>
           exists n: nat :: 1 <= n && RejectsAt(now, target, leaseValid, at, n)
  }

  ghost predicate RejectsAt(now: int, target: int, leaseValid: int -> bool, at: int, n: nat)
    requires 1 <= n
  {
    && at == CheckTime(now, n) && at <= FiresAt(now, target)
    && !leaseValid(at) && ValidThrough(now, n - 1, leaseValid)
  }

  /** No check that comes before the timer finds the lease invalid. `checkFirst` says which goes first
      when both are due at the same instant. */
  ghost predicate Survives(now: int, target: int, leaseValid: int -> bool, checkFirst: bool) {
    target <= now ||
    forall n: nat | 1 <= n && ComesBefore(CheckTime(now, n), FiresAt(now, target), checkFirst) ::
      leaseValid(CheckTime(now, n))
  }

  predicate ComesBefore(check: int, timer: int, checkFirst: bool) {
    check < timer || (check == timer && checkFirst)
  }

  /** A wait has one outcome, unless a failing check and the timer coincide. */
  lemma OutcomeIsUnique(now: int, target: int, leaseValid: int -> bool, a: Outcome, b: Outcome)
    requires Ends(now, target, leaseValid, a) && Ends(now, target, leaseValid, b)
    ensures a == b || (a.at == b.at == FiresAt(now, target) && !leaseValid(a.at))
  {}

  /** A wait that resolves has reached its target exactly when the remaining time fits a timer. */
  lemma ResolvesOnTimeIff(now: int, target: int, leaseValid: int -> bool, o: Outcome)
    requires Ends(now, target, leaseValid, o) && o.Resolved?
    ensures target <= o.at <==> target - now <= 2147483647
  {}

  /** Once the lease is lost for good the wait ends within one check interval. */
  lemma LossIsNoticed(now: int, target: int, leaseValid: int -> bool, o: Outcome, lostAt: int)
    requires Ends(now, target, leaseValid, o) && now <= lostAt
    requires forall t: int | lostAt <= t :: !leaseValid(t)
    ensures o.at <= lostAt + 1000
  {
    if target > now {
      var n := (lostAt - now) / 1000 + 1;
      assert lostAt < CheckTime(now, n) <= lostAt + 1000;
      if o.Rejected? {
        var m: nat :| 1 <= m && RejectsAt(now, target, leaseValid, o.at, m);
        if n < m {
          assert !leaseValid(CheckTime(now, n));
        }
      }
    }
  }

  /** The two timer handles of one wait, and every settlement of its promise. */
  class Waiter {
    var timerId: Option<int>          // when the timer fires
    var checkIntervalId: Option<int>  // when the next check runs
    var settled: seq<Outcome>

    constructor ()
      ensures timerId == None && checkIntervalId == None && settled == []
    {
      timerId, checkIntervalId, settled := None, None, [];
    }

    method Cleanup()
      modifies this
      ensures timerId == None && checkIntervalId == None && settled == old(settled)
    {
      timerId := None;
      checkIntervalId := None;
    }

    /** The interval callback at time `at`. */
    method Check(at: int, leaseValid: int -> bool)
      requires checkIntervalId == Some(at)
      modifies this
      ensures leaseValid(at) ==>
                timerId == old(timerId) && settled == old(settled) &&
                checkIntervalId == Some(at + LEASE_CHECK_INTERVAL_MS)
      ensures !leaseValid(at) ==>
                timerId == None && checkIntervalId == None && settled == old(settled) + [Rejected(at)]
    {
      if !leaseValid(at) {
        Cleanup();
        settled := settled + [Rejected(at)];
        return;
      }
      checkIntervalId := Some(at + LEASE_CHECK_INTERVAL_MS);
    }

    /** Sets the timers and lets the event loop run them in time order until none is left: the wait
        resolves exactly when no check before the timer fails, and then when the timer fires. */
    method WaitUntil(target: int, now: int, leaseValid: int -> bool, checkFirst: bool) returns (o: Outcome)
      requires timerId == None && checkIntervalId == None && settled == []
      modifies this
      ensures settled == [o] && Ends(now, target, leaseValid, o)
      ensures o.Resolved? <==> Survives(now, target, leaseValid, checkFirst)
      ensures o.Resolved? ==> o.at == if target <= now then now else FiresAt(now, target)
      ensures timerId == None && checkIntervalId == None
    {
      if target - now <= 0 {
        settled := [Resolved(now)];
        return Resolved(now);
      }
      checkIntervalId := Some(now + LEASE_CHECK_INTERVAL_MS);
      timerId := Some(now + TimerDelay(target - now));
      ghost var n: nat := 0;
      while timerId.Some?
        invariant timerId.Some? ==>
                    && timerId == Some(FiresAt(now, target)) && settled == []
                    && checkIntervalId == Some(CheckTime(now, n + 1)) && ValidThrough(now, n, leaseValid)
                    && CheckTime(now, n) <= FiresAt(now, target)
        invariant timerId.None? ==>
                    && checkIntervalId.None? && |settled| == 1 && Ends(now, target, leaseValid, settled[0])
                    && (settled[0].Resolved? <==> Survives(now, target, leaseValid, checkFirst))
        decreases if timerId.Some? then FiresAt(now, target) - CheckTime(now, n) + 1 else 0
      {
        var check := checkIntervalId.value;
        if check < timerId.value || (check == timerId.value && checkFirst) {
          n := n + 1;
          Check(check, leaseValid);
          assert timerId.None? ==> RejectsAt(now, target, leaseValid, check, n);
        } else {
          var at := timerId.value;
          Cleanup();
          settled := settled + [Resolved(at)];
        }
      }
      o := settled[0];
    }
  }
}
