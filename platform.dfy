/**
  The operating-system services the limiters and the tester use, as seen from the
  calling thread: a monotonic clock, `std::thread::sleep`, and the Windows
  multimedia-timer calls `timeGetDevCaps`, `timeBeginPeriod` and `timeEndPeriod`.

  All durations and instants are whole nanoseconds. What the real clock and the
  scheduler decide (how long a sleep overshoots, how much time passes between two
  clock samples) is left free: the methods below choose it with `:|`, so every
  client proof holds for every such choice.
*/
module Platform {

  const NanosPerMicro: nat := 1_000
  const NanosPerMilli: nat := 1_000_000
  const NanosPerSec: nat := 1_000_000_000

  /** Rust's `u32` */
  type U32 = x: nat | x < 0x1_0000_0000

  datatype Option<T> = None | Some(value: T)

  /** What `timeGetDevCaps` reports: `TIMERR_NOERROR` together with the `TIMECAPS`
      it filled in, or any other return code. */
  datatype DevCaps = NoError(wPeriodMin: U32, wPeriodMax: U32) | Failed

  /** One call into the timer-resolution API, as the OS records it. */
  datatype TimerCall = BeginPeriod(period: U32) | EndPeriod(period: U32)

  /** `get_min_period`: the minimum timer period the device supports, or 1 when the
      query fails; the body is the same in all three strategies that use it. */
  function GetMinPeriod(caps: DevCaps): (p: U32)
    ensures caps.NoError? ==> p == caps.wPeriodMin
    ensures caps.Failed? ==> p == 1
  {
    match caps
    case NoError(wPeriodMin, _) => wPeriodMin
    case Failed => 1
  }

  /** The state of the process as the limiters can observe and change it. */
  class Os {
    /** whether the program was built for Windows (`#[cfg(windows)]`) */
    const windows: bool
    /** the answer `timeGetDevCaps` gives on this machine */
    const devCaps: DevCaps
    /** the monotonic clock, in nanoseconds */
    var clock: nat
    /** every `std::thread::sleep` request issued so far, in order */
    var sleeps: seq<nat>
    /** every `timeBeginPeriod` / `timeEndPeriod` call issued so far, in order */
    var timerCalls: seq<TimerCall>
    /** the periods requested with `timeBeginPeriod` and not yet ended */
    var periods: multiset<U32>

    constructor (windows: bool, devCaps: DevCaps, clock: nat)
      ensures this.windows == windows && this.devCaps == devCaps && this.clock == clock
      ensures sleeps == [] && timerCalls == [] && periods == multiset{}
    {
      this.windows := windows;
      this.devCaps := devCaps;
      this.clock := clock;
      sleeps := [];
      timerCalls := [];
      periods := multiset{};
    }

    /** `Instant::now()`. Taking a sample takes time: each sample is at least one
        nanosecond later than anything before it. */
    method Now() returns (t: nat)
      modifies this
      ensures t == clock && clock > old(clock)
      ensures sleeps == old(sleeps) && timerCalls == old(timerCalls) && periods == old(periods)
    {
      var lag: nat :| true;
      clock := clock + 1 + lag;
      t := clock;
    }

    /** `std::thread::sleep(d)`: never returns early, may return arbitrarily late. */
    method Sleep(d: nat)
      modifies this
      ensures clock >= old(clock) + d
      ensures sleeps == old(sleeps) + [d]
      ensures timerCalls == old(timerCalls) && periods == old(periods)
    {
      var overshoot: nat :| true;
      clock := clock + d + overshoot;
      sleeps := sleeps + [d];
    }

    /** Code the caller hands over (a closure) runs on this thread: time passes, and
        the code may sleep, call the timer API and change the active periods in any
        way. The logs only grow. */
    method Elapse()
      modifies this
      ensures clock >= old(clock)
      ensures old(sleeps) <= sleeps && old(timerCalls) <= timerCalls
    {
      var spent: nat :| true;
      var moreSleeps: seq<nat> :| true;
      var moreCalls: seq<TimerCall> :| true;
      var active: multiset<U32> :| true;
      clock := clock + spent;
      sleeps := sleeps + moreSleeps;
      timerCalls := timerCalls + moreCalls;
      periods := active;
    }

    /** `timeBeginPeriod(p)` */
    method TimeBeginPeriod(p: U32)
      modifies this
      ensures periods == old(periods) + multiset{p}
      ensures timerCalls == old(timerCalls) + [BeginPeriod(p)]
      ensures clock == old(clock) && sleeps == old(sleeps)
    {
      periods := periods + multiset{p};
      timerCalls := timerCalls + [BeginPeriod(p)];
    }

    /** `timeEndPeriod(p)`: ends one earlier request for `p` (none, if there is none). */
    method TimeEndPeriod(p: U32)
      modifies this
      ensures periods == old(periods) - multiset{p}
      ensures timerCalls == old(timerCalls) + [EndPeriod(p)]
      ensures clock == old(clock) && sleeps == old(sleeps)
    {
      periods := periods - multiset{p};
      timerCalls := timerCalls + [EndPeriod(p)];
    }
  }
}
