/**
  The single sleep plus spin (`time_period_close_sleep_once`): aim at `time - 2µs`,
  sleep once for all of it except a safety margin of two timer periods, then spin on
  the clock until the aimed-at instant. Construction raises the timer resolution and
  dropping the limiter restores it. Only the Windows build of this strategy exists:
  elsewhere it lacks `get_min_period`, `init` and `shutdown`.
*/
module TimePeriodCloseSleepOnce {
  import opened Platform

  /** `close_enough`: 2 microseconds */
  const CloseEnough: nat := 2 * NanosPerMicro

  /** `safe_sleep_duration`: `2 * Duration::from_millis(min_period)`, two timer
      periods, a whole number of milliseconds. */
  function SafeSleepDuration(minPeriod: U32): (r: nat)
    ensures r % NanosPerMilli == 0 && r / NanosPerMilli == 2 * minPeriod
  {
    2 * (minPeriod * NanosPerMilli)
  }

  /** The sleep requests `wait(time)` issues. `time - close_enough` (`target_duration`)
      is a `Duration` subtraction, which panics below 2 µs. */
  function SleepPlan(time: nat, minPeriod: U32): (plan: seq<nat>)
    requires time >= CloseEnough
    ensures |plan| <= 1
    ensures |plan| == 1 <==> time - CloseEnough > SafeSleepDuration(minPeriod)
    ensures |plan| == 1 ==> plan[0] + SafeSleepDuration(minPeriod) == time - CloseEnough
    ensures |plan| == 1 && minPeriod >= 1 ==> plan[0] < time - CloseEnough
  {
    var targetDuration := time - CloseEnough;
    var safeSleepDuration := SafeSleepDuration(minPeriod);
    if targetDuration > safeSleepDuration then [targetDuration - safeSleepDuration] else []
  }

  /** With a 1 ms period a 16.67 ms request sleeps once, for 14.668 ms. */
  lemma SixtyHertzFrame()
    ensures SleepPlan(16_670 * NanosPerMicro, 1) == [14_668 * NanosPerMicro]
  {
  }

  /** `time_period_close_sleep_once::LimiterImpl` (Windows build) */
  class LimiterImpl {
    const os: Os
    const closeEnough: nat := CloseEnough
    /** `min_period` */
    var minPeriod: U32
    /** set once `drop` has run */
    ghost var dropped: bool

    /** `default` / `new` / `create`: query the minimum period, then `init`. */
    constructor (os: Os)
      requires os.windows
      modifies os
      ensures this.os == os && minPeriod == GetMinPeriod(os.devCaps) && !dropped
      ensures os.timerCalls == old(os.timerCalls) + [BeginPeriod(minPeriod)]
      ensures os.periods == old(os.periods) + multiset{minPeriod}
      ensures os.clock == old(os.clock) && os.sleeps == old(os.sleeps)
    {
      this.os := os;
      minPeriod := GetMinPeriod(os.devCaps);
      dropped := false;
      new;
      Init();
    }

    /** `init`: `timeBeginPeriod(min_period)` */
    method Init()
      modifies os
      ensures os.timerCalls == old(os.timerCalls) + [BeginPeriod(minPeriod)]
      ensures os.periods == old(os.periods) + multiset{minPeriod}
      ensures os.clock == old(os.clock) && os.sleeps == old(os.sleeps)
    {
      os.TimeBeginPeriod(minPeriod);
    }

    /** `shutdown`: `timeEndPeriod(min_period)` */
    method Shutdown()
      modifies os
      ensures os.timerCalls == old(os.timerCalls) + [EndPeriod(minPeriod)]
      ensures os.periods == old(os.periods) - multiset{minPeriod}
      ensures os.clock == old(os.clock) && os.sleeps == old(os.sleeps)
    {
      os.TimeEndPeriod(minPeriod);
    }

    /** `Drop::drop`, which Rust runs exactly once, when the limiter goes out of scope. */
    method Drop()
      requires !dropped
      modifies this, os
      ensures dropped && minPeriod == old(minPeriod)
      ensures os.timerCalls == old(os.timerCalls) + [EndPeriod(minPeriod)]
      ensures os.periods == old(os.periods) - multiset{minPeriod}
      ensures os.clock == old(os.clock) && os.sleeps == old(os.sleeps)
    {
      Shutdown();
      dropped := true;
    }

    /** `Limiter::wait`. `start` is the instant sampled after computing the target and
        `spinFrom` the clock when the busy-wait begins. It issues exactly the sleeps of
        `SleepPlan`, returns no earlier than `start + target_duration`, and leaves at
        most `safe_sleep_duration` of the target to the busy-wait. */
    method Wait(time: nat) returns (ghost start: nat, ghost spinFrom: nat)
      requires time >= closeEnough
      requires !dropped
      modifies os
      ensures os.sleeps == old(os.sleeps) + SleepPlan(time, minPeriod)
      ensures old(os.clock) < start <= spinFrom <= os.clock
      ensures os.clock >= start + (time - closeEnough)
      ensures spinFrom + SafeSleepDuration(minPeriod) >= start + (time - closeEnough)
      ensures os.timerCalls == old(os.timerCalls) && os.periods == old(os.periods)
      ensures minPeriod == old(minPeriod)
    {
      var targetDuration := time - closeEnough;
      var now := os.Now();
      start := now;
      var targetInstant := now + targetDuration;
      var safeSleepDuration := SafeSleepDuration(minPeriod);
      if targetDuration > safeSleepDuration {
        os.Sleep(targetDuration - safeSleepDuration);
      }
      spinFrom := os.clock;
      var t := os.Now();
      while t < targetInstant
        invariant t == os.clock && spinFrom <= t
        invariant os.sleeps == old(os.sleeps) + SleepPlan(time, minPeriod)
        invariant os.timerCalls == old(os.timerCalls) && os.periods == old(os.periods)
        decreases targetInstant - t
      {
        t := os.Now();
      }
    }
  }

  /** A limiter's whole life: construct, any number of waits, drop. The one
      `timeBeginPeriod` is matched by one `timeEndPeriod` of the same period, and the
      OS's set of active period requests ends where it started. */
  method ConstructWaitDrop(os: Os, requests: seq<nat>)
    requires os.windows
    requires forall i | 0 <= i < |requests| :: requests[i] >= CloseEnough
    modifies os
    ensures os.periods == old(os.periods)
    ensures os.timerCalls == old(os.timerCalls)
      + [BeginPeriod(GetMinPeriod(os.devCaps)), EndPeriod(GetMinPeriod(os.devCaps))]
  {
    var limiter := new LimiterImpl(os);
    ghost var afterInit := os.timerCalls;
    for i := 0 to |requests|
      invariant !limiter.dropped && limiter.os == os
      invariant limiter.minPeriod == GetMinPeriod(os.devCaps)
      invariant os.periods == old(os.periods) + multiset{limiter.minPeriod}
      invariant os.timerCalls == afterInit
    {
      var _, _ := limiter.Wait(requests[i]);
    }
    limiter.Drop();
  }
}
