# test_limiter in Dafny

A model of the frame-limiter "wait" strategies of `test_limiter` and the bookkeeping
around them:

- the **halving wait** (`time_period_close_sleep`): sleep half of the request,
  measure, then sleep half of the remaining gap until within 500 µs;
- the **single sleep plus spin** (`time_period_close_sleep_once`): one sleep that
  stops two timer periods short of `time - 2µs`, then a busy-wait on the clock;
- the **plain sleep with raised timer resolution** (`time_period_standard_sleep`);
- the **timer-resolution lifecycle** these three share: the constructor queries
  `timeGetDevCaps` (falling back to 1 on failure), calls `timeBeginPeriod`; `Drop`
  calls `timeEndPeriod` with the same period;
- the tester's **`DurationSample`** accumulator (count, sum, min, max);
- **`ProcessTimes`**: component-wise difference and the `FILETIME` conversion of `get`.

Durations and instants are whole nanoseconds (`nat`). The clock, `std::thread::sleep`
and the Windows timer calls are methods of one class, `Platform.Os`, which records
every sleep request and every timer call and keeps the multiset of periods that were
begun and not yet ended. What the OS decides is left free (chosen with `:|`): a sleep
never returns early but may return arbitrarily late, and each clock sample is at
least 1 ns later than the previous one. Every proof about a strategy therefore holds
for every such behaviour. Whether the build is for Windows is `Os.windows`;
`timeGetDevCaps`'s answer is `Os.devCaps`.

Files: `platform.dfy` (module `Platform`), `time_period_close_sleep.dfy`,
`time_period_close_sleep_once.dfy`, `time_period_standard_sleep.dfy`,
`duration_sample.dfy` (module `DurationSamples`), `process_times.dfy`
(module `ProcessTimesModel`), and `arithmetic.dfy` (module `Arithmetic`, one shared
fact about multiplication).

A call of the halving `wait(time)` is described by two sequences: `chunks`, the
sleep requests, and `totals`, the total measured after each sleep.
`TimePeriodCloseSleep.IsRun` says they form a complete call. Every sleep passed the
loop guard: the total before it was below `time - 500µs`. Every request was above
500 µs. The first request was `time / 2`, and each later one was `(time - total) / 2`.
Each sleep measured at least what it asked for. The call ended in one of three ways:
`time <= 500µs`, the in-loop return once the total reached `time`, or the loop guard
failing. The lemmas next to it prove what such a run guarantees.

`wait` in `time_period_close_sleep_once` computes `time - close_enough` as a
`Duration` subtraction, which panics below 2 µs, so `TimePeriodCloseSleepOnce.LimiterImpl.Wait`
requires `time >= 2µs`.

## Model

| member | source | states |
|---|---|---|
| `Platform.GetMinPeriod` | limiter/src/time_period_standard_sleep/mod.rs:37-54 | the minimum period is `wPeriodMin` when `timeGetDevCaps` returns `TIMERR_NOERROR`, and 1 otherwise (the same body is at limiter/src/time_period_close_sleep/mod.rs:77-94 and limiter/src/time_period_close_sleep_once/mod.rs:52-69) |
| `TimePeriodCloseSleep.ExtendRun` | limiter/src/time_period_close_sleep/mod.rs:52-66 | one loop iteration extends a run: if the guard passes, the current chunk is requested and at least that much is measured, the longer sequences are still a run prefix |
| `TimePeriodCloseSleep.NoSleepIffShort` | limiter/src/time_period_close_sleep/mod.rs:40-53 | a call issues no sleep exactly when `time <= 2 * 500µs + 1ns`, i.e. when the outer test fails or the first chunk `time / 2` already fails the loop guard |
| `TimePeriodCloseSleep.NextChunkHalves` | limiter/src/time_period_close_sleep/mod.rs:55-66 | each later request is at most half of the previous one, rounded up (`2 * chunks[k+1] <= chunks[k] + 1`) |
| `TimePeriodCloseSleep.ChunksNonIncreasing` | limiter/src/time_period_close_sleep/mod.rs:52-66 | sleep requests never grow: `chunks[j] <= chunks[i]` for `i <= j` |
| `TimePeriodCloseSleep.TotalsGrow` | limiter/src/time_period_close_sleep/mod.rs:52-66 | each sleep raises the measured total by more than 500 µs, and before each sleep the total is below `time` |
| `TimePeriodCloseSleep.ChunkBound` | limiter/src/time_period_close_sleep/mod.rs:47-66 | the `k`-th request is about `time / 2^(k+1)`: `2^(k+1) * chunks[k] <= time + 2^(k+1) - 2` |
| `TimePeriodCloseSleep.SleepCountBound` | limiter/src/time_period_close_sleep/mod.rs:47-66 | a call that sleeps `n > 0` times had `2^n * 500µs < time`, so it sleeps at most about `log2(time / 500µs)` times |
| `TimePeriodCloseSleep.TenMillisecondsSleepsAtMostFourTimes` | limiter/src/time_period_close_sleep/mod.rs:40-66 | a 10 ms request issues at most four sleeps |
| `TimePeriodCloseSleep.ResidualGap` | limiter/src/time_period_close_sleep/mod.rs:43-70 | when the call ends without the in-loop return, the measured total is at least `time - 500µs`, or the gap left is at most `2 * 500µs + 1ns` |
| `TimePeriodCloseSleep.LimiterImpl.constructor` | limiter/src/time_period_close_sleep/mod.rs:10-19 | on Windows `min_period` is `GetMinPeriod` and exactly one `timeBeginPeriod(min_period)` is issued; elsewhere there is no period and the OS is untouched; clock and sleeps unchanged |
| `TimePeriodCloseSleep.LimiterImpl.Init` | limiter/src/time_period_close_sleep/mod.rs:96-116 | `timeBeginPeriod(min_period)` on Windows, nothing on other builds |
| `TimePeriodCloseSleep.LimiterImpl.Shutdown` | limiter/src/time_period_close_sleep/mod.rs:102-116 | `timeEndPeriod(min_period)` on Windows, which removes that period from the active ones; nothing on other builds |
| `TimePeriodCloseSleep.LimiterImpl.Drop` | limiter/src/time_period_close_sleep/mod.rs:22-26 | runs once (requires not yet dropped); issues exactly the matching `timeEndPeriod` with the unchanged `min_period` |
| `TimePeriodCloseSleep.LimiterImpl.Wait` | limiter/src/time_period_close_sleep/mod.rs:35-72 | the sleeps it issues are a complete halving run (`IsRun`); the first clock sample `start` is later than the clock on entry, and on return the clock is `start` plus the final measured total; no timer call, `min_period` unchanged |
| `TimePeriodCloseSleep.ConstructWaitDrop` | limiter/src/time_period_close_sleep/mod.rs:10-26 | construct, any waits, drop: the timer calls are exactly `BeginPeriod(p), EndPeriod(p)` (none off Windows) and the active periods end as they started |
| `TimePeriodCloseSleepOnce.SafeSleepDuration` | limiter/src/time_period_close_sleep_once/mod.rs:38 | `safe_sleep_duration` is two timer periods: exactly `2 * min_period` whole milliseconds, in nanoseconds |
| `TimePeriodCloseSleepOnce.SleepPlan` | limiter/src/time_period_close_sleep_once/mod.rs:33-43 | with `target = time - 2µs` and `safe = 2 * min_period` ms: at most one sleep, one exactly when `target > safe`; its length plus `safe` is `target`, and it is shorter than `target` when `min_period >= 1` |
| `TimePeriodCloseSleepOnce.SixtyHertzFrame` | limiter/src/time_period_close_sleep_once/mod.rs:33-43 | with a 1 ms period, a 16.67 ms request sleeps once, for 14.668 ms |
| `TimePeriodCloseSleepOnce.LimiterImpl.constructor` | limiter/src/time_period_close_sleep_once/mod.rs:8-17 | `min_period` is `GetMinPeriod`, and exactly one `timeBeginPeriod(min_period)` is issued before the instance is returned |
| `TimePeriodCloseSleepOnce.LimiterImpl.Init` | limiter/src/time_period_close_sleep_once/mod.rs:71-77 | `timeBeginPeriod(min_period)`: one call, the period becomes active |
| `TimePeriodCloseSleepOnce.LimiterImpl.Shutdown` | limiter/src/time_period_close_sleep_once/mod.rs:79-85 | `timeEndPeriod(min_period)`: one call, one request for the period ends |
| `TimePeriodCloseSleepOnce.LimiterImpl.Drop` | limiter/src/time_period_close_sleep_once/mod.rs:19-23 | runs once; issues the matching `timeEndPeriod` with the unchanged `min_period` |
| `TimePeriodCloseSleepOnce.LimiterImpl.Wait` | limiter/src/time_period_close_sleep_once/mod.rs:32-47 | requires `time >= 2µs`; issues exactly the sleeps of `SleepPlan`; returns no earlier than `start + target_duration`; the busy-wait starts with at most `safe_sleep_duration` of the target left; no timer call, `min_period` unchanged |
| `TimePeriodCloseSleepOnce.ConstructWaitDrop` | limiter/src/time_period_close_sleep_once/mod.rs:8-23 | construct, any waits, drop: timer calls are exactly `BeginPeriod(p), EndPeriod(p)` and the active periods end as they started |
| `TimePeriodStandardSleep.LimiterImpl.constructor` | limiter/src/time_period_standard_sleep/mod.rs:7-15 | `min_period` is `GetMinPeriod`, and exactly one `timeBeginPeriod(min_period)` is issued before the instance is returned |
| `TimePeriodStandardSleep.LimiterImpl.Init` | limiter/src/time_period_standard_sleep/mod.rs:56-60 | `timeBeginPeriod(min_period)`: one call, the period becomes active |
| `TimePeriodStandardSleep.LimiterImpl.Shutdown` | limiter/src/time_period_standard_sleep/mod.rs:62-66 | `timeEndPeriod(min_period)`: one call, one request for the period ends |
| `TimePeriodStandardSleep.LimiterImpl.Drop` | limiter/src/time_period_standard_sleep/mod.rs:17-21 | runs once; issues the matching `timeEndPeriod` with the unchanged `min_period` |
| `TimePeriodStandardSleep.LimiterImpl.Wait` | limiter/src/time_period_standard_sleep/mod.rs:30-32 | exactly one sleep, of exactly `time`; at least `time` passes; no timer call, `min_period` unchanged |
| `TimePeriodStandardSleep.ConstructWaitDrop` | limiter/src/time_period_standard_sleep/mod.rs:7-32 | construct, waits, drop: timer calls are exactly `BeginPeriod(p), EndPeriod(p)`, the active periods end as they started, and the sleeps are exactly the requests |
| `DurationSamples.RunningMinIsLeast` | tester/src/duration_sample.rs:41 | the `min` after a sequence of adds is at most the sentinel and at most every value added, and equals the sentinel or one of them |
| `DurationSamples.RunningMaxIsGreatest` | tester/src/duration_sample.rs:42 | the `max` after a sequence of adds is at least 0 and every value added, and equals 0 or one of them |
| `DurationSamples.MinAtMostMax` | tester/src/duration_sample.rs:38-43 | after at least one `add`, `min <= max` |
| `DurationSamples.DurationSample.constructor` | tester/src/duration_sample.rs:10-19 | `count = 0`, `accumulator = 0`, `max = 0`, `min = 100000 s`, nothing added yet |
| `DurationSamples.DurationSample.Min` | tester/src/duration_sample.rs:22-24 | the result is below every value added and the sentinel, and is the sentinel or one of the values |
| `DurationSamples.DurationSample.Max` | tester/src/duration_sample.rs:26-28 | the result is above every value added, and is 0 or one of the values |
| `DurationSamples.DurationSample.Duration` | tester/src/duration_sample.rs:30-32 | the result is the sum of all values added |
| `DurationSamples.DurationSample.Average` | tester/src/duration_sample.rs:34-36 | requires a sample (division by zero panics); the result is the sum divided by the count, rounded down |
| `DurationSamples.DurationSample.Add` | tester/src/duration_sample.rs:38-43 | `count` grows by one, `accumulator` by the value, `min`/`max` become the smaller/larger of old and new, and the invariant tying them to the values added is kept |
| `DurationSamples.DurationSample.Capture` | tester/src/duration_sample.rs:45-52 | exactly one `add`, of the time measured between the clock samples before and after the closure runs; the closure may sleep and call the timer API, so of the OS only the growth of its sleep and timer-call logs is promised |
| `ProcessTimesModel.Sub` | perf/src/process_times.rs:10-15 | requires no component to underflow; each component of the result plus that of `b` gives that of `a` |
| `ProcessTimesModel.FileTimeNanosAsWritten` | perf/src/process_times.rs:50-57 | the conversion as written: when it returns, the result is `((low + high) mod 2^32) * 2^32 * 100` ns, i.e. the shift keeps only the low word of the sum; it panics when `* 100` reaches 2^64 (exactly when, see `AsWrittenPanicsIff`) |
| `ProcessTimesModel.ShiftKeepsLowWord` | perf/src/process_times.rs:51-52 | `x << 32` in `u64` keeps only the low 32 bits of `x`: `(x * 2^32) mod 2^64 = (x mod 2^32) * 2^32` |
| `ProcessTimesModel.AsWrittenPanicsIff` | perf/src/process_times.rs:50-57 | the conversion as written panics exactly when `(low + high) mod 2^32 >= 42949673` |
| `ProcessTimesModel.AsWrittenMisreadsLowWord` | perf/src/process_times.rs:50-53 | a `FILETIME` of 1 tick (100 ns) converts, as written, to 429496729600 ns instead of 100 ns |
| `ProcessTimesModel.FileTimeNanosRoundTrip` | perf/src/process_times.rs:50-57 | the intended conversion `(low + (high << 32)) * 100` loses nothing: converting back recovers the `FILETIME` |
| `ProcessTimesModel.Get` | perf/src/process_times.rs:19-72 | off Windows, two zero durations; on Windows, `None` exactly when `GetProcessTimes` returns 0, a panic exactly when one conversion as written overflows, and otherwise both times as written |

## Findings

| source | as written | input that shows it | evidently intended | confidence | as-written member | corrected member |
|---|---|---|---|---|---|---|
| perf/src/process_times.rs:50-57 | `(low as u64 + (high as u64) << 32) * 100` parses as `((low + high) << 32) * 100`, since `+` binds tighter than `<<` | `FILETIME { low: 1, high: 0 }` (100 ns) gives 429496729600 ns (about 429.5 s); any `low + high` whose low 32 bits reach 42949673 (about 4.3 s of CPU time) overflows the `* 100` and panics | `(low + (high << 32)) * 100`: the tick count times 100 ns | high; not executed | `ProcessTimesModel.AsWrittenMisreadsLowWord` | `ProcessTimesModel.FileTimeNanosRoundTrip` |

The as-written side is `FileTimeNanosAsWritten`, together with
`AsWrittenMisreadsLowWord` and `AsWrittenPanicsIff`. The corrected side is
`FileTimeNanos`, together with `FileTimeNanosRoundTrip`. `Get` keeps the conversion
as written, because it models the code. A corrected `get` would use `FileTimeNanos`
in its place.

## Left out

- The `Limiter` trait is not a Dafny type (traits are not used here), and the file that declares it is not part of this model. Each strategy class has a `Wait(time)` method of the trait's shape instead.
- `create()`, `new()` and the `Box<dyn Limiter>`: they only forward to `default`, which each class's constructor models.
- `println!` in `init` and `shutdown`: console output.
- The real clock and scheduler. How late a sleep returns and how far apart clock samples are is left free; the model only assumes sleeps never return early and samples are at least 1 ns apart.
- The inside of `timeGetDevCaps`, `timeBeginPeriod`, `timeEndPeriod`, `GetProcessTimes` and `GetCurrentProcess`, and their `unsafe` pointer handling. The return codes of `timeBeginPeriod` and `timeEndPeriod` are ignored by the code, and so by the model. The answers of `timeGetDevCaps` and `GetProcessTimes` are inputs (`Os.devCaps`, `GetProcessTimesResult`). `Os.periods` is an abstract count of active requests.
- Sharing the timer resolution between threads and instances: concurrency and OS policy.
- The non-Windows builds of `time_period_close_sleep_once` and `time_period_standard_sleep`: they lack `get_min_period`, `init` and `shutdown`, so their constructors require `os.windows`.
- `limiter/src/standard_sleep/mod.rs`, `tester/src/main.rs` and `tester/src/accuracy_test.rs`: a one-line sleep, and the benchmark driver with `f32` statistics and printing.
- Overflow of `Duration` additions (`accumulator += value`, `total += delta`, `Instant + Duration`): `Duration` holds 2^64 seconds, and the model's durations are unbounded.
- Release builds: there arithmetic overflow wraps instead of panicking. The model follows the default profile, where `count += 1` past `u32::MAX` panics (a precondition of `Add`) and the `* 100` of the `FILETIME` conversion panics (`Outcome.Panicked`).
- `FileTimeNanos` is unbounded. A `u64` version would overflow after about 584 years of CPU time (`ticks * 100 >= 2^64` ns).
- `Duration / 2` and `Duration / count` are modelled as floor division of the nanosecond count.
- TimePeriodCloseSleepOnce.LimiterImpl.Wait: bounds only how much of the target the busy-wait has left to cover (at most `safe_sleep_duration`), not the time actually spent spinning. That time also depends on how far apart the clock samples are, which the model leaves free.
