/**
  The halving wait (`time_period_close_sleep`): sleep for half of the request, measure
  how long really passed, then keep sleeping for half of the remaining gap until the
  measured total is within `close_enough` of the request or the next chunk would be no
  longer than `close_enough`. Construction raises the timer resolution (Windows only)
  and dropping the limiter restores it.

  One call of `wait(time)` is described by two sequences of the same length: `chunks`,
  the sleep requests in order, and `totals`, the total measured after each sleep.
*/
module TimePeriodCloseSleep {
  import opened Platform
  import opened Arithmetic

  /** `close_enough`: 500 microseconds */
  const CloseEnough: nat := 500 * NanosPerMicro

  /** The total measured before the `k`-th sleep. */
  function TotalBefore(totals: seq<nat>, k: nat): nat
    requires k <= |totals|
  {
    if k == 0 then 0 else totals[k - 1]
  }

  /** What `current` holds before the `k`-th sleep: half the request at first, then
      half of what remained after the previous sleep. */
  function ChunkAt(time: nat, totals: seq<nat>, k: nat): int
    requires k <= |totals|
  {
    if k == 0 then time / 2 else (time - totals[k - 1]) / 2
  }

  /** The `k`-th sleep was issued from a state that passed the loop guard, asked for the
      current chunk, and the clock then measured at least what it asked for. */
  ghost predicate StepOk(time: nat, chunks: seq<nat>, totals: seq<nat>, k: nat)
    requires |chunks| == |totals| && k < |chunks|
  {
    TotalBefore(totals, k) < time - CloseEnough
    && chunks[k] == ChunkAt(time, totals, k)
    && chunks[k] > CloseEnough
    && totals[k] >= TotalBefore(totals, k) + chunks[k]
  }

  /** The sleeps issued so far by one call of `wait(time)`. */
  ghost predicate IsRunPrefix(time: nat, chunks: seq<nat>, totals: seq<nat>)
  {
    |chunks| == |totals|
    && (|chunks| > 0 ==> time > CloseEnough)
    && forall k | 0 <= k < |chunks| :: StepOk(time, chunks, totals, k)
  }

  /** The ways a call can end: the request was within tolerance from the start, the
      measured total reached the request (the return inside the loop), or the loop
      guard failed. */
  ghost predicate Finished(time: nat, chunks: seq<nat>, totals: seq<nat>)
    requires |chunks| == |totals|
  {
    var n := |chunks|;
    (time <= CloseEnough && n == 0)
    || (n > 0 && totals[n - 1] >= time)
    || (time > CloseEnough && TotalBefore(totals, n) < time
        && !(TotalBefore(totals, n) < time - CloseEnough && ChunkAt(time, totals, n) > CloseEnough))
  }

  /** A complete call of `wait(time)`. */
  ghost predicate IsRun(time: nat, chunks: seq<nat>, totals: seq<nat>)
  {
    IsRunPrefix(time, chunks, totals) && Finished(time, chunks, totals)
  }

  /** A sleep issued from a state that passes the loop guard, asking for the current
      chunk and measuring at least that much, extends a run. */
  lemma ExtendRun(time: nat, chunks: seq<nat>, totals: seq<nat>, chunk: nat, total: nat)
    requires IsRunPrefix(time, chunks, totals)
    requires time > CloseEnough
    requires TotalBefore(totals, |totals|) < time - CloseEnough
    requires chunk == ChunkAt(time, totals, |totals|) && chunk > CloseEnough
    requires total >= TotalBefore(totals, |totals|) + chunk
    ensures IsRunPrefix(time, chunks + [chunk], totals + [total])
  {
    var chunks', totals' := chunks + [chunk], totals + [total];
    forall k | 0 <= k < |chunks'|
      ensures StepOk(time, chunks', totals', k)
    {
      assert TotalBefore(totals', k) == TotalBefore(totals, k);
      assert ChunkAt(time, totals', k) == ChunkAt(time, totals, k);
      if k < |chunks| {
        assert StepOk(time, chunks, totals, k);
      }
    }
  }

  function Pow2(n: nat): (r: nat)
    ensures r >= 1
  {
    if n == 0 then 1 else 2 * Pow2(n - 1)
  }

  /** No sleep at all exactly when the request is at most `2 * close_enough + 1ns`:
      at most `close_enough` the outer test skips the loop, and up to `2 * close_enough + 1ns`
      the first chunk `time / 2` already fails the loop guard. */
  lemma NoSleepIffShort(time: nat, chunks: seq<nat>, totals: seq<nat>)
    requires IsRun(time, chunks, totals)
    ensures chunks == [] <==> time <= 2 * CloseEnough + 1
  {
    if chunks == [] {
      assert Finished(time, chunks, totals);
      assert TotalBefore(totals, 0) == 0 && ChunkAt(time, totals, 0) == time / 2;
    } else {
      assert StepOk(time, chunks, totals, 0);
    }
  }

  /** A later chunk is at most half of the previous one, rounded up: the sleep
      consumed at least the previous chunk of a gap of at most twice that plus one. */
  lemma NextChunkHalves(time: nat, chunks: seq<nat>, totals: seq<nat>, k: nat)
    requires IsRunPrefix(time, chunks, totals)
    requires k + 1 < |chunks|
    ensures 2 * chunks[k + 1] <= chunks[k] + 1
  {
    assert StepOk(time, chunks, totals, k);
    assert StepOk(time, chunks, totals, k + 1);
    assert TotalBefore(totals, k + 1) == totals[k];
  }

  /** Successive sleep requests never grow. */
  lemma {:induction false} ChunksNonIncreasing(time: nat, chunks: seq<nat>, totals: seq<nat>, i: nat, j: nat)
    requires IsRunPrefix(time, chunks, totals)
    requires i <= j < |chunks|
    ensures chunks[j] <= chunks[i]
    decreases j - i
  {
    if i < j {
      NextChunkHalves(time, chunks, totals, i);
      ChunksNonIncreasing(time, chunks, totals, i + 1, j);
    }
  }

  /** Every sleep raises the measured total by more than `close_enough`, and the total
      before every sleep is below the request. */
  lemma TotalsGrow(time: nat, chunks: seq<nat>, totals: seq<nat>, k: nat)
    requires IsRunPrefix(time, chunks, totals)
    requires k < |chunks|
    ensures totals[k] > TotalBefore(totals, k) + CloseEnough
    ensures TotalBefore(totals, k) < time
  {
    assert StepOk(time, chunks, totals, k);
  }

  /** The `k`-th chunk is about `time / 2^(k+1)`: `2^(k+1) * chunks[k] <= time + 2^(k+1) - 2`. */
  lemma {:induction false} ChunkBound(time: nat, chunks: seq<nat>, totals: seq<nat>, k: nat)
    requires IsRunPrefix(time, chunks, totals)
    requires k < |chunks|
    ensures Pow2(k + 1) * chunks[k] <= time + Pow2(k + 1) - 2
  {
    if k == 0 {
      assert StepOk(time, chunks, totals, 0);
    } else {
      ChunkBound(time, chunks, totals, k - 1);
      NextChunkHalves(time, chunks, totals, k - 1);
      var p := Pow2(k);
      assert Pow2(k + 1) == 2 * p;
      calc {
        Pow2(k + 1) * chunks[k];
        == p * (2 * chunks[k]);
        <= { MulMonotone(p, 2 * chunks[k], chunks[k - 1] + 1); }
           p * (chunks[k - 1] + 1);
        == p * chunks[k - 1] + p;
        <= time + p - 2 + p;
      }
    }
  }

  /** Termination with a bound: a call that sleeps `n > 0` times had a request longer
      than `2^n * close_enough`, so it sleeps at most about `log2(time / close_enough)` times. */
  lemma SleepCountBound(time: nat, chunks: seq<nat>, totals: seq<nat>)
    requires IsRunPrefix(time, chunks, totals)
    requires |chunks| > 0
    ensures Pow2(|chunks|) * CloseEnough < time
  {
    var n := |chunks|;
    ChunkBound(time, chunks, totals, n - 1);
    assert StepOk(time, chunks, totals, n - 1);
    MulMonotone(Pow2(n), CloseEnough + 1, chunks[n - 1]);
  }

  lemma {:induction false} Pow2Monotone(m: nat, n: nat)
    requires m <= n
    ensures Pow2(m) <= Pow2(n)
    decreases n
  {
    if m < n {
      Pow2Monotone(m, n - 1);
    }
  }

  /** A 10 ms request sleeps at most four times (five chunks above 500 µs would need
      more than 16 ms). */
  lemma TenMillisecondsSleepsAtMostFourTimes(chunks: seq<nat>, totals: seq<nat>)
    requires IsRunPrefix(10 * NanosPerMilli, chunks, totals)
    ensures |chunks| <= 4
  {
    if |chunks| > 4 {
      SleepCountBound(10 * NanosPerMilli, chunks, totals);
      Pow2Monotone(5, |chunks|);
      assert Pow2(5) == 32;
      MulMonotone(CloseEnough, 32, Pow2(|chunks|));
    }
  }

  /** What a call that returns without the in-loop return has achieved: either the
      measured total is within `close_enough` of the request, or the gap left is at
      most `2 * close_enough + 1ns`. */
  lemma ResidualGap(time: nat, chunks: seq<nat>, totals: seq<nat>)
    requires IsRun(time, chunks, totals)
    requires time > CloseEnough
    requires chunks == [] || totals[|chunks| - 1] < time
    ensures TotalBefore(totals, |chunks|) >= time - CloseEnough
         || time - TotalBefore(totals, |chunks|) <= 2 * CloseEnough + 1
  {
    assert Finished(time, chunks, totals);
  }

  /** `time_period_close_sleep::LimiterImpl` */
  class LimiterImpl {
    const os: Os
    const closeEnough: nat := CloseEnough
    /** `min_period` (a field only on Windows builds) */
    var minPeriod: Option<U32>
    /** set once `drop` has run */
    ghost var dropped: bool

    /** The periods this instance has begun and not yet ended. */
    ghost function Requested(): multiset<U32>
      reads this
    {
      if minPeriod.Some? then multiset{minPeriod.value} else multiset{}
    }

    ghost function BeginCalls(): seq<TimerCall>
      reads this
    {
      if minPeriod.Some? then [BeginPeriod(minPeriod.value)] else []
    }

    ghost function EndCalls(): seq<TimerCall>
      reads this
    {
      if minPeriod.Some? then [EndPeriod(minPeriod.value)] else []
    }

    /** `default` / `new` / `create`: query the minimum period (Windows only), then `init`. */
    constructor (os: Os)
      modifies os
      ensures this.os == os && closeEnough == CloseEnough && !dropped
      ensures minPeriod == if os.windows then Some(GetMinPeriod(os.devCaps)) else None
      ensures os.timerCalls == old(os.timerCalls) + BeginCalls()
      ensures os.periods == old(os.periods) + Requested()
      ensures os.clock == old(os.clock) && os.sleeps == old(os.sleeps)
    {
      this.os := os;
      minPeriod := if os.windows then Some(GetMinPeriod(os.devCaps)) else None;
      dropped := false;
      new;
      Init();
    }

    /** `init`: `timeBeginPeriod(min_period)` on Windows, nothing elsewhere. */
    method Init()
      modifies os
      ensures os.timerCalls == old(os.timerCalls) + BeginCalls()
      ensures os.periods == old(os.periods) + Requested()
      ensures os.clock == old(os.clock) && os.sleeps == old(os.sleeps)
    {
      if minPeriod.Some? {
        os.TimeBeginPeriod(minPeriod.value);
      }
    }

    /** `shutdown`: `timeEndPeriod(min_period)` on Windows, nothing elsewhere. */
    method Shutdown()
      modifies os
      ensures os.timerCalls == old(os.timerCalls) + EndCalls()
      ensures os.periods == old(os.periods) - Requested()
      ensures os.clock == old(os.clock) && os.sleeps == old(os.sleeps)
    {
      if minPeriod.Some? {
        os.TimeEndPeriod(minPeriod.value);
      }
    }

    /** `Drop::drop`, which Rust runs exactly once, when the limiter goes out of scope. */
    method Drop()
      requires !dropped
      modifies this, os
      ensures dropped && minPeriod == old(minPeriod)
      ensures os.timerCalls == old(os.timerCalls) + EndCalls()
      ensures os.periods == old(os.periods) - Requested()
      ensures os.clock == old(os.clock) && os.sleeps == old(os.sleeps)
    {
      Shutdown();
      dropped := true;
    }

    /** `Limiter::wait`: the sleeps it issues form a complete halving run, and the
        last measured total is the time elapsed since the first clock sample `start`;
        it touches nothing but the clock and the sleep log (it takes `&self`, so
        `min_period` stays as it is). */
    method Wait(time: nat) returns (ghost start: nat, ghost chunks: seq<nat>, ghost totals: seq<nat>)
      requires !dropped
      modifies os
      ensures IsRun(time, chunks, totals)
      ensures os.sleeps == old(os.sleeps) + chunks
      ensures old(os.clock) < start && os.clock == start + TotalBefore(totals, |totals|)
      ensures os.timerCalls == old(os.timerCalls) && os.periods == old(os.periods)
      ensures minPeriod == old(minPeriod)
    {
      chunks, totals := [], [];
      var now := os.Now();
      start := now;
      if time > closeEnough {
        var closeEnoughTotal := time - closeEnough;
        var current := time / 2;
        var total := 0;
        while total < closeEnoughTotal && current > closeEnough
          invariant IsRunPrefix(time, chunks, totals)
          invariant total == TotalBefore(totals, |totals|) && current == ChunkAt(time, totals, |totals|)
          invariant total < time
          invariant now == os.clock && now == start + total && start > old(os.clock)
          invariant os.sleeps == old(os.sleeps) + chunks
          invariant os.timerCalls == old(os.timerCalls) && os.periods == old(os.periods)
          decreases time - total
        {
          os.Sleep(current);
          var lastNow := now;
          now := os.Now();
          var delta := now - lastNow;
          total := total + delta;
          ExtendRun(time, chunks, totals, current, total);
          chunks, totals := chunks + [current], totals + [total];
          if time > total {
            current := (time - total) / 2;
          } else {
            return;
          }
        }
      }
    }
  }

  /** A limiter's whole life: construct, any number of waits, drop. Every
      `timeBeginPeriod` is matched by a `timeEndPeriod` of the same period, and the
      OS's set of active period requests ends where it started. */
  method ConstructWaitDrop(os: Os, requests: seq<nat>)
    modifies os
    ensures os.periods == old(os.periods)
    ensures os.timerCalls == old(os.timerCalls)
      + (if os.windows then [BeginPeriod(GetMinPeriod(os.devCaps)), EndPeriod(GetMinPeriod(os.devCaps))] else [])
  {
    var limiter := new LimiterImpl(os);
    ghost var afterInit := os.timerCalls;
    for i := 0 to |requests|
      invariant !limiter.dropped && limiter.os == os
      invariant limiter.minPeriod == if os.windows then Some(GetMinPeriod(os.devCaps)) else None
      invariant os.periods == old(os.periods) + limiter.Requested()
      invariant os.timerCalls == afterInit
    {
      var _, _, _ := limiter.Wait(requests[i]);
    }
    limiter.Drop();
  }
}
