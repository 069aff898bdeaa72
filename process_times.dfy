/**
  The CPU time the process has used (`perf::process_times`): user and kernel time,
  the difference of two readings, and the conversion of the `FILETIME`s that
  `GetProcessTimes` fills in (counts of 100-nanosecond ticks split into two 32-bit
  words) into durations.

  Arithmetic overflow is taken to panic, as it does under Rust's default (debug)
  profile; `Outcome.Panicked` stands for that panic.
*/
module ProcessTimesModel {
  import opened Platform
  import opened Arithmetic

  const TwoTo32: nat := 0x1_0000_0000
  const TwoTo64: nat := 0x1_0000_0000_0000_0000

  /** `ProcessTimes` */
  datatype ProcessTimes = ProcessTimes(user: nat, kernel: nat)

  /** `impl Sub for ProcessTimes`: component-wise; a `Duration` subtraction panics on
      underflow, so neither component of `b` may exceed that of `a`. */
  function Sub(a: ProcessTimes, b: ProcessTimes): (r: ProcessTimes)
    requires b.user <= a.user && b.kernel <= a.kernel
    ensures r.user + b.user == a.user && r.kernel + b.kernel == a.kernel
  {
    ProcessTimes(a.user - b.user, a.kernel - b.kernel)
  }

  /** `FILETIME` */
  datatype FileTime = FileTime(dwLowDateTime: U32, dwHighDateTime: U32)

  /** A computation that returns a value or panics. */
  datatype Outcome<T> = Returned(value: T) | Panicked

  /** The conversion as written in `get`: `(low as u64 + high as u64) << 32` (addition
      binds tighter than the shift, and the shift drops every bit above 64), then
      `* 100`, which panics when it overflows `u64`. */
  function FileTimeNanosAsWritten(ft: FileTime): (r: Outcome<nat>)
    ensures r.Returned? ==>
      r.value == ((ft.dwLowDateTime + ft.dwHighDateTime) % TwoTo32) * TwoTo32 * 100
  {
    ShiftKeepsLowWord(ft.dwLowDateTime + ft.dwHighDateTime);
    var shifted := ((ft.dwLowDateTime + ft.dwHighDateTime) * TwoTo32) % TwoTo64;
    if shifted * 100 < TwoTo64 then Returned(shifted * 100) else Panicked
  }

  lemma ShiftKeepsLowWord(x: nat)
    ensures (x * TwoTo32) % TwoTo64 == (x % TwoTo32) * TwoTo32
  {
    var q, m := x / TwoTo32, x % TwoTo32;
    assert x * TwoTo32 == q * TwoTo64 + m * TwoTo32;
    assert 0 <= m * TwoTo32 < TwoTo64;
  }

  /** The conversion as written panics exactly when the low 32 bits of `low + high`
      reach 42949673, the least `n` with `n * 100 >= 2^32`: about 4.3 s of CPU time
      when the high word is zero. */
  lemma AsWrittenPanicsIff(ft: FileTime)
    ensures FileTimeNanosAsWritten(ft).Panicked?
        <==> (ft.dwLowDateTime + ft.dwHighDateTime) % TwoTo32 >= 42_949_673
  {
    var m := (ft.dwLowDateTime + ft.dwHighDateTime) % TwoTo32;
    ShiftKeepsLowWord(ft.dwLowDateTime + ft.dwHighDateTime);
    assert (m * TwoTo32) * 100 == (m * 100) * TwoTo32;
    if m >= 42_949_673 {
      MulMonotone(TwoTo32, TwoTo32, m * 100);
    } else {
      MulMonotone(TwoTo32, m * 100, TwoTo32 - 1);
    }
  }

  /** The number of 100 ns ticks a `FILETIME` holds: `low + (high << 32)`. */
  function Ticks(ft: FileTime): nat
  {
    ft.dwHighDateTime * TwoTo32 + ft.dwLowDateTime
  }

  /** The conversion the code evidently intends: ticks times 100 nanoseconds. */
  function FileTimeNanos(ft: FileTime): nat
  {
    Ticks(ft) * 100
  }

  /** Reads a duration back as a `FILETIME`. */
  function FileTimeOfNanos(nanos: nat): FileTime
    requires nanos / 100 < TwoTo64
  {
    var ticks := nanos / 100;
    FileTime(ticks % TwoTo32, ticks / TwoTo32)
  }

  /** The intended conversion loses nothing: the `FILETIME` is recovered from the
      duration, so distinct readings give distinct durations. */
  lemma FileTimeNanosRoundTrip(ft: FileTime)
    ensures FileTimeNanos(ft) / 100 < TwoTo64
    ensures FileTimeOfNanos(FileTimeNanos(ft)) == ft
  {
    var ticks := Ticks(ft);
    assert FileTimeNanos(ft) / 100 == ticks;
    MulMonotone(TwoTo32, ft.dwHighDateTime, TwoTo32 - 1);
    assert ticks < TwoTo64;
    assert ticks % TwoTo32 == ft.dwLowDateTime && ticks / TwoTo32 == ft.dwHighDateTime;
  }

  /** The conversion as written misreads the low word as a high word: 1 tick
      (100 ns) comes out as 2^32 ticks (about 429.5 s). */
  lemma AsWrittenMisreadsLowWord()
    ensures FileTimeNanos(FileTime(1, 0)) == 100
    ensures FileTimeNanosAsWritten(FileTime(1, 0)) == Returned(429_496_729_600)
  {
  }

  /** What `GetProcessTimes` hands back: its `BOOL` result and the kernel and user
      `FILETIME`s it filled in. */
  datatype GetProcessTimesResult = GetProcessTimesResult(result: int, kernel: FileTime, user: FileTime)

  /** `get`: on Windows, `None` when `GetProcessTimes` fails, otherwise both times by
      the conversion as written (kernel time first, so a panic there comes first);
      on every other platform, two zero durations. */
  function Get(windows: bool, call: GetProcessTimesResult): (r: Outcome<Option<ProcessTimes>>)
    ensures !windows ==> r == Returned(Some(ProcessTimes(0, 0)))
    ensures windows ==> (r == Returned(None) <==> call.result == 0)
    ensures windows && call.result != 0 ==>
      (r.Panicked? <==> FileTimeNanosAsWritten(call.kernel).Panicked? || FileTimeNanosAsWritten(call.user).Panicked?)
    ensures windows && r.Returned? && r.value.Some? ==>
      Returned(r.value.value.user) == FileTimeNanosAsWritten(call.user)
      && Returned(r.value.value.kernel) == FileTimeNanosAsWritten(call.kernel)
  {
    if !windows then
      Returned(Some(ProcessTimes(0, 0)))
    else if call.result == 0 then
      Returned(None)
    else
      match FileTimeNanosAsWritten(call.kernel)
      case Panicked => Panicked
      case Returned(kernelTime) =>
        match FileTimeNanosAsWritten(call.user)
        case Panicked => Panicked
        case Returned(userTime) => Returned(Some(ProcessTimes(userTime, kernelTime)))
  }
}
