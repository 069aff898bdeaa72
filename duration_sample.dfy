/**
  The tester's running statistics (`DurationSample`): how many durations were added,
  their sum, the smallest and the largest. `min` starts at a sentinel of 100000 s and
  `max` at zero, so both are only meaningful after the first `add`.
*/
module DurationSamples {
  import opened Platform

  /** The initial `min`: 100000 seconds */
  const MinSentinel: nat := 100_000 * NanosPerSec

  /** `u32::MAX`; `count += 1` past it panics */
  const CountMax: nat := 0xFFFF_FFFF

  function Sum(s: seq<nat>): nat
  {
    if s == [] then 0 else Sum(s[..|s| - 1]) + s[|s| - 1]
  }

  /** The `min` update: keep the old value unless the new one is smaller. */
  function Smaller(a: nat, b: nat): nat
  {
    if a <= b then a else b
  }

  /** The `max` update: keep the old value unless the new one is larger. */
  function Larger(a: nat, b: nat): nat
  {
    if a >= b then a else b
  }

  /** `min` after adding the elements of `s`, in order, to a sample whose `min` was `init`. */
  function RunningMin(init: nat, s: seq<nat>): nat
  {
    if s == [] then init else Smaller(RunningMin(init, s[..|s| - 1]), s[|s| - 1])
  }

  /** `max` after adding the elements of `s`, in order, to a sample whose `max` was `init`. */
  function RunningMax(init: nat, s: seq<nat>): nat
  {
    if s == [] then init else Larger(RunningMax(init, s[..|s| - 1]), s[|s| - 1])
  }

  /** The running minimum is the least of `init` and the elements: below all of them
      and equal to one of them. */
  lemma {:induction false} RunningMinIsLeast(init: nat, s: seq<nat>)
    ensures RunningMin(init, s) <= init
    ensures forall i | 0 <= i < |s| :: RunningMin(init, s) <= s[i]
    ensures RunningMin(init, s) == init || exists i | 0 <= i < |s| :: RunningMin(init, s) == s[i]
  {
    if s != [] {
      var front := s[..|s| - 1];
      RunningMinIsLeast(init, front);
      assert forall i | 0 <= i < |front| :: s[i] == front[i];
    }
  }

  /** The running maximum is the greatest of `init` and the elements. */
  lemma {:induction false} RunningMaxIsGreatest(init: nat, s: seq<nat>)
    ensures RunningMax(init, s) >= init
    ensures forall i | 0 <= i < |s| :: RunningMax(init, s) >= s[i]
    ensures RunningMax(init, s) == init || exists i | 0 <= i < |s| :: RunningMax(init, s) == s[i]
  {
    if s != [] {
      var front := s[..|s| - 1];
      RunningMaxIsGreatest(init, front);
      assert forall i | 0 <= i < |front| :: s[i] == front[i];
    }
  }

  /** Once anything has been added, `min <= max`. */
  lemma MinAtMostMax(s: seq<nat>)
    requires s != []
    ensures RunningMin(MinSentinel, s) <= RunningMax(0, s)
  {
    RunningMinIsLeast(MinSentinel, s);
    RunningMaxIsGreatest(0, s);
  }

  /** `tester::duration_sample::DurationSample` */
  class DurationSample {
    var accumulator: nat
    var min: nat
    var max: nat
    var count: U32
    /** the durations added so far, in order */
    ghost var samples: seq<nat>

    ghost predicate Valid()
      reads this
    {
      count == |samples|
      && accumulator == Sum(samples)
      && min == RunningMin(MinSentinel, samples)
      && max == RunningMax(0, samples)
    }

    /** `default` */
    constructor ()
      ensures Valid() && samples == []
      ensures count == 0 && accumulator == 0 && min == MinSentinel && max == 0
    {
      accumulator := 0;
      min := MinSentinel;
      max := 0;
      count := 0;
      samples := [];
    }

    /** `min()`: the smallest duration added, or the sentinel if none is smaller. */
    function Min(): (r: nat)
      reads this
      requires Valid()
      ensures r <= MinSentinel
      ensures forall i | 0 <= i < |samples| :: r <= samples[i]
      ensures r == MinSentinel || exists i | 0 <= i < |samples| :: r == samples[i]
    {
      RunningMinIsLeast(MinSentinel, samples);
      min
    }

    /** `max()`: the largest duration added, or zero if none was. */
    function Max(): (r: nat)
      reads this
      requires Valid()
      ensures forall i | 0 <= i < |samples| :: r >= samples[i]
      ensures r == 0 || exists i | 0 <= i < |samples| :: r == samples[i]
    {
      RunningMaxIsGreatest(0, samples);
      max
    }

    /** `duration()`: the sum of all durations added. */
    function Duration(): (r: nat)
      reads this
      requires Valid()
      ensures r == Sum(samples)
    {
      accumulator
    }

    /** `average()`: the sum divided by the count, rounded down. Dividing a `Duration`
        by zero panics, so there must be a sample. */
    function Average(): (r: nat)
      reads this
      requires Valid() && count > 0
      ensures r * |samples| <= Sum(samples) < (r + 1) * |samples|
    {
      accumulator / count
    }

    /** `add(value)` */
    method Add(value: nat)
      requires Valid() && count < CountMax
      modifies this
      ensures Valid() && samples == old(samples) + [value]
      ensures count == old(count) + 1 && accumulator == old(accumulator) + value
      ensures min == Smaller(old(min), value) && max == Larger(old(max), value)
    {
      count := count + 1;
      accumulator := accumulator + value;
      min := if min <= value then min else value;
      max := if max >= value then max else value;
      samples := samples + [value];
      assert samples[..|samples| - 1] == old(samples);
    }

    /** `capture(f)`: time the closure `f` and add what was measured. `start` is the
        clock sample taken before `f` runs; the one taken after it is the new clock.
        `f` may do anything the OS allows (a limiter's `wait` sleeps), so of the OS
        state only the growth of its logs is promised. */
    method Capture(os: Os) returns (ghost start: nat)
      requires Valid() && count < CountMax
      modifies this, os
      ensures Valid() && old(os.clock) < start < os.clock
      ensures samples == old(samples) + [os.clock - start]
      ensures old(os.sleeps) <= os.sleeps && old(os.timerCalls) <= os.timerCalls
    {
      var begin := os.Now();
      start := begin;
      os.Elapse();
      var end := os.Now();
      Add(end - begin);
    }
  }
}
