/**
  The plain sleep with a raised timer resolution (`time_period_standard_sleep`):
  construction raises the resolution to the device's minimum period, `wait` is one
  `std::thread::sleep`, and dropping the limiter restores the resolution. Only the
  Windows build is modelled: elsewhere the strategy lacks `get_min_period`, `init`
  and `shutdown`.
*/
module TimePeriodStandardSleep {
  import opened Platform

  /** `time_period_standard_sleep::LimiterImpl` (Windows build) */
  class LimiterImpl {
    const os: Os
    /** `min_period` */
    var minPeriod: U32
    /** set once `drop` has run */
    ghost var dropped: bool

    /** `default` / `new` / `create`: query the minimum period, then `init`, before
        the instance is handed out. */
    constructor (os: Os)
      requires os.windows
      modifies os
      ensures this.os == os && minPeriod == GetMinPeriod(os.devCaps) && !dropped
      ensures os.timerCalls == old(os.timerCalls) + [BeginPeriod(minPeriod)]
      ensures os.periods == old(os.periods) + multiset{minPeriod}
      ensures os.clock == old(os.clock) && os.sleeps == old(os.sleeps)
    {
      this.os := os;
      minPeriod := GetMinPeriod(os.devCaps);
      dropped := false;
      new;
      Init();
    }

    /** `init`: `timeBeginPeriod(min_period)` */
    method Init()
      modifies os
      ensures os.timerCalls == old(os.timerCalls) + [BeginPeriod(minPeriod)]
      ensures os.periods == old(os.periods) + multiset{minPeriod}
      ensures os.clock == old(os.clock) && os.sleeps == old(os.sleeps)
    {
      os.TimeBeginPeriod(minPeriod);
    }

    /** `shutdown`: `timeEndPeriod(min_period)` */
    method Shutdown()
      modifies os
      ensures os.timerCalls == old(os.timerCalls) + [EndPeriod(minPeriod)]
      ensures os.periods == old(os.periods) - multiset{minPeriod}
      ensures os.clock == old(os.clock) && os.sleeps == old(os.sleeps)
    {
      os.TimeEndPeriod(minPeriod);
    }

    /** `Drop::drop`, which Rust runs exactly once, when the limiter goes out of scope. */
    method Drop()
      requires !dropped
      modifies this, os
      ensures dropped && minPeriod == old(minPeriod)
      ensures os.timerCalls == old(os.timerCalls) + [EndPeriod(minPeriod)]
      ensures os.periods == old(os.periods) - multiset{minPeriod}
      ensures os.clock == old(os.clock) && os.sleeps == old(os.sleeps)
    {
      Shutdown();
      dropped := true;
    }

    /** `Limiter::wait`: exactly one sleep, of exactly the requested duration. */
    method Wait(time: nat)
      requires !dropped
      modifies os
      ensures os.sleeps == old(os.sleeps) + [time]
      ensures os.clock >= old(os.clock) + time
      ensures os.timerCalls == old(os.timerCalls) && os.periods == old(os.periods)
      ensures minPeriod == old(minPeriod)
    {
      os.Sleep(time);
    }
  }

  /** A limiter's whole life: construct, any number of waits, drop. The one
      `timeBeginPeriod` is matched by one `timeEndPeriod` of the same period, and the
      OS's set of active period requests ends where it started. */
  method ConstructWaitDrop(os: Os, requests: seq<nat>)
    requires os.windows
    modifies os
    ensures os.periods == old(os.periods)
    ensures os.timerCalls == old(os.timerCalls)
      + [BeginPeriod(GetMinPeriod(os.devCaps)), EndPeriod(GetMinPeriod(os.devCaps))]
    ensures os.sleeps == old(os.sleeps) + requests
  {
    var limiter := new LimiterImpl(os);
    ghost var afterInit := os.timerCalls;
    for i := 0 to |requests|
      invariant !limiter.dropped && limiter.os == os
      invariant limiter.minPeriod == GetMinPeriod(os.devCaps)
      invariant os.periods == old(os.periods) + multiset{limiter.minPeriod}
      invariant os.timerCalls == afterInit
      invariant os.sleeps == old(os.sleeps) + requests[..i]
    {
      limiter.Wait(requests[i]);
    }
    assert requests[..|requests|] == requests;
    limiter.Drop();
  }
}
