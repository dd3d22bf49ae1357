/**
  sc_cond_timedwait() of src/util/sc_thread.cpp and the two loops that use it: sc_server_sleep() in
  src/server/server.cpp and sc_process_observer_timedwait() in src/util/sc_process.cpp.

  Time passes in nanoseconds; both clocks of the program run on it, each with its own origin. A wait
  is ended by the next wake-up, a signal or a spurious one, or by its timeout, possibly late.
 */
module TimedWait {
  import opened Tick
  import opened Wrappers

  /** After `delay` nanoseconds the waiter wakes up; another thread may have set the flag before. */
  datatype WakeUp = WakeUp(delay: nat, setsFlag: bool)

  /** The wait in milliseconds, rounded up: SC_TICK_TO_MS(wait + SC_TICK_FROM_MS(1) - 1). */
  function RoundedUp(wait: nat): nat {
    ToMs(wait + FromMs(1) - 1)
  }

  lemma RoundedUpByLessThanOneMs(wait: nat)
    ensures wait <= RoundedUp(wait) * 1000 < wait + 1000
  {
  }

  /** The wake-ups that a loop has taken: none of them set the flag, but the last one if it ended the loop. */
  ghost predicate Taken(before: seq<WakeUp>, after: seq<WakeUp>, ended: bool) {
    var n := |before| - |after|;
    && 0 <= n && after == before[n..]
    && (forall i :: 0 <= i < n && (i == n - 1 ==> !ended) ==> !before[i].setsFlag)
    && (ended ==> 0 < n && before[n - 1].setsFlag)
  }

  class Monitor {
    const tickOrigin: nat     // of sc_tick_now()
    const steadyOrigin: nat   // of std::chrono::steady_clock, in nanoseconds
    var time: nat
    var flag: bool            // m_stopped or terminated
    var wakeUps: seq<WakeUp>  // still to come

    constructor (tickOrigin: nat, steadyOrigin: nat, wakeUps: seq<WakeUp>)
      ensures this.tickOrigin == tickOrigin && this.steadyOrigin == steadyOrigin && this.wakeUps == wakeUps
      ensures time == 0 && !flag
    {
      this.tickOrigin, this.steadyOrigin, this.wakeUps := tickOrigin, steadyOrigin, wakeUps;
      time, flag := 0, false;
    }

    /** sc_tick_now(): microseconds, rounded down. */
    function TickNow(): nat
      reads this`time
    {
      (time + tickOrigin) / 1000
    }

    function SteadyNow(): nat
      reads this`time
    {
      time + steadyOrigin
    }

    method TimePasses()
      modifies this`time
      ensures time >= old(time)
    {
      var ns :| ns >= 0;
      time := time + ns;
    }

    /** wait_until(): times out only when the steady clock has reached the timeout. */
    method WaitUntil(timeout: nat) returns (noTimeout: bool)
      modifies this`time, this`flag, this`wakeUps
      ensures time >= old(time) && (old(flag) ==> flag)
      ensures !noTimeout ==> SteadyNow() >= timeout && wakeUps == old(wakeUps)
      ensures noTimeout ==> SteadyNow() < timeout && old(wakeUps) != []
      ensures noTimeout ==> time == old(time) + old(wakeUps)[0].delay && wakeUps == old(wakeUps)[1..]
      ensures noTimeout ==> flag == (old(flag) || old(wakeUps)[0].setsFlag)
    {
      if wakeUps != [] && SteadyNow() + wakeUps[0].delay < timeout {
        time := time + wakeUps[0].delay;
        flag := flag || wakeUps[0].setsFlag;
        wakeUps := wakeUps[1..];
        return true;
      }
      if SteadyNow() < timeout {
        time := timeout - steadyOrigin;
      }
      TimePasses();
      var setMeanwhile := *;
      flag := flag || setMeanwhile;
      noTimeout := false;
    }

    /** The tick clock, in nanoseconds, when the steady clock reaches t. */
    function TickNanosAt(t: int): int {
      t - steadyOrigin + tickOrigin
    }

    /**
      False only at or after the deadline. Unless that has passed already, the wait is given an end that is
      not before the deadline, and beyond it by less than a millisecond and the time `lost` between the
      readings of the two clocks.
     */
    method CondTimedWait(deadline: nat) returns (signaled: bool, ghost end: Option<int>, ghost lost: nat)
      modifies this`time, this`flag, this`wakeUps
      ensures end == None <==> deadline <= old(TickNow())
      ensures end == None ==> !signaled && time == old(time) && flag == old(flag)
      ensures end.Some? ==> deadline * 1000 <= TickNanosAt(end.value) < deadline * 1000 + 1_000_000 + lost
      ensures end.Some? ==> lost <= time - old(time)
      ensures end.Some? ==> (signaled <==> SteadyNow() < end.value)
      ensures time >= old(time) && (old(flag) ==> flag)
      ensures !signaled ==> TickNow() >= deadline && wakeUps == old(wakeUps)
      ensures signaled ==> old(wakeUps) != [] && wakeUps == old(wakeUps)[1..]
      ensures signaled ==> flag == (old(flag) || old(wakeUps)[0].setsFlag)
    {
      end, lost := None, 0;
      var now := TickNow();
      if deadline <= now {
        return false, end, lost;
      }
      ghost var before := time;
      TimePasses();
      var ms := RoundedUp(deadline - now);
      RoundedUpByLessThanOneMs(deadline - now);
      end, lost := Some(SteadyNow() + ms * 1_000_000), time - before;
      signaled := WaitUntil(SteadyNow() + ms * 1_000_000);
    }

    /** True only at or after the deadline, false only if stopped. */
    method ServerSleep(deadline: nat) returns (slept: bool)
      modifies this`time, this`flag, this`wakeUps
      ensures time >= old(time)
      ensures slept ==> TickNow() >= deadline
      ensures !slept ==> flag
      ensures if old(flag) then !slept && wakeUps == old(wakeUps) else Taken(old(wakeUps), wakeUps, !slept)
    {
      while !flag
        invariant time >= old(time)
        invariant if old(flag) then flag && wakeUps == old(wakeUps) else Taken(old(wakeUps), wakeUps, flag)
        decreases |wakeUps|
      {
        var signaled;
        ghost var end, lost;
        signaled, end, lost := CondTimedWait(deadline);
        if !signaled {
          return true;
        }
      }
      slept := false;
    }

    /** True only if the process has terminated, false only at or after the deadline. */
    method ObserverTimedWait(deadline: nat) returns (terminated: bool)
      modifies this`time, this`flag, this`wakeUps
      ensures time >= old(time)
      ensures terminated ==> flag
      ensures !terminated ==> TickNow() >= deadline
      ensures if old(flag) then terminated && wakeUps == old(wakeUps) else Taken(old(wakeUps), wakeUps, terminated)
    {
      while !flag
        invariant time >= old(time)
        invariant if old(flag) then flag && wakeUps == old(wakeUps) else Taken(old(wakeUps), wakeUps, flag)
        decreases |wakeUps|
      {
        var signaled;
        ghost var end, lost;
        signaled, end, lost := CondTimedWait(deadline);
        if !signaled {
          return false;
        }
      }
      terminated := true;
    }
  }
}
