/** The fixed-point sliding average of request round trips (cratetorrent/src/avg.rs). */
module Avg {
  /** The i64 division of the source: toward zero. */
  function Trunc(x: int, y: int): int
    requires y > 0
  {
    if x >= 0 then x / y else -((-x) / y)
  }

  function Abs(x: int): nat { if x < 0 then -x else x }

  /** The mean and deviation are held in 64ths. */
  datatype Sliding = Sliding(mean: int, deviation: int, count: nat, gain: nat) {
    predicate Valid() { gain >= 1 && count <= gain }

    function Mean(): int { if count == 0 then 0 else Trunc(mean + 32, 64) }

    function Deviation(): int { if count == 0 then 0 else Trunc(deviation + 32, 64) }
  }

  function New(gain: nat): Sliding { Sliding(0, 0, 0, gain) }

  function Updated(a: Sliding, sample: int): Sliding
    requires a.Valid()
  {
    var s := sample * 64;
    var off := if a.count > 0 then Abs(a.mean - s) else 0;
    var n := if a.count < a.gain then a.count + 1 else a.count;
    Sliding(a.mean + Trunc(s - a.mean, n),
            if n > 1 then a.deviation + Trunc(off - a.deviation, n - 1) else a.deviation,
            n, a.gain)
  }

  /** `to` is a truncated n-th of the way from `from` to `aim`. */
  predicate StepTo(from: int, aim: int, n: nat, to: int) {
    && (from <= aim ==> from <= to <= aim) && (aim <= from ==> aim <= to <= from)
    && Abs(aim - from) - n < n * Abs(to - from) <= Abs(aim - from)
  }

  lemma StepIs(from: int, aim: int, n: nat)
    requires n >= 1
    ensures StepTo(from, aim, n, from + Trunc(aim - from, n))
  {
    StepBetween(from, aim, n);
    var q, d := Trunc(aim - from, n), aim - from;
    TruncError(d, n);
    if d >= 0 { MulSign(n, q, d); } else { MulSign(n, -q, -d); }
  }

  lemma MulSign(n: nat, q: int, d: int)
    requires n >= 1 && 0 <= d && Abs(d - n * q) <= n - 1 && (q == d / n)
    ensures q >= 0 && d - n < n * q <= d
  {
    assert d == n * (d / n) + d % n;
  }

  /** A sample moves the mean towards it by an n-th of its distance, and the deviation towards that distance
      by an (n - 1)-th, n being the number of samples up to the gain: beyond it the average goes on moving. */
  lemma UpdateMoves(a: Sliding, sample: int)
    requires a.Valid()
    ensures var b := Updated(a, sample);
      && b.gain == a.gain && b.count == (if a.count + 1 < a.gain then a.count + 1 else a.gain)
      && StepTo(a.mean, 64 * sample, b.count, b.mean)
      && (if b.count == 1 then b.deviation == a.deviation
          else StepTo(a.deviation, if a.count == 0 then 0 else Abs(64 * sample - a.mean), b.count - 1, b.deviation))
  {
    hide Trunc, StepTo;
    var n := if a.count < a.gain then a.count + 1 else a.count;
    StepIs(a.mean, sample * 64, n);
    if n > 1 {
      StepIs(a.deviation, if a.count > 0 then Abs(a.mean - sample * 64) else 0, n - 1);
    }
  }

  /** The getters round to the nearest whole number. */
  lemma GettersRound(a: Sliding)
    requires a.count > 0
    ensures a.mean >= 0 ==> -32 <= a.mean - 64 * a.Mean() < 32
    ensures a.deviation >= 0 ==> -32 <= a.deviation - 64 * a.Deviation() < 32
  {
  }

  function After(gain: nat, samples: seq<int>): (a: Sliding)
    requires gain >= 1
    ensures a.Valid() && a.gain == gain
  {
    if samples == [] then New(gain) else Updated(After(gain, samples[..|samples| - 1]), samples[|samples| - 1])
  }

  /** A truncated step stays between where it starts and where it aims. */
  lemma StepBetween(from: int, to: int, n: int)
    requires n >= 1
    ensures from <= to ==> from <= from + Trunc(to - from, n) <= to
    ensures to <= from ==> to <= from + Trunc(to - from, n) <= from
  {
    QuotientBelow(Abs(to - from), n);
  }

  lemma {:induction false} QuotientBelow(x: int, n: int)
    requires x >= 0 && n >= 1
    ensures 0 <= x / n <= x
  {
    assert x == n * (x / n) + x % n;
    if x / n > x {
      MulMono(x / n, n);
    }
  }

  lemma MulMono(q: int, n: int)
    requires n >= 1 && q >= 0
    ensures n * q >= q
  {
  }

  predicate Within(samples: seq<int>, lo: int, hi: int) {
    forall k :: 0 <= k < |samples| ==> lo <= samples[k] <= hi
  }

  lemma {:induction false} HullInside(gain: nat, samples: seq<int>, lo: int, hi: int)
    requires gain >= 1 && samples != [] && 0 <= lo && Within(samples, lo, hi)
    ensures var a := After(gain, samples);
      a.count >= 1 && 64 * lo <= a.mean <= 64 * hi && 0 <= a.deviation <= 64 * (hi - lo)
    decreases |samples|
  {
    hide Updated;
    var k := |samples| - 1;
    var init, sample := samples[..k], samples[k];
    assert lo <= sample <= hi;
    if init == [] {
      FirstInside(gain, sample);
    } else {
      HullInside(gain, init, lo, hi);
      UpdateInside(After(gain, init), sample, lo, hi);
    }
  }

  lemma FirstInside(gain: nat, sample: int)
    requires gain >= 1
    ensures Updated(New(gain), sample) == Sliding(64 * sample, 0, 1, gain)
  {
    hide Trunc;
    TruncByOne(sample * 64);
  }

  lemma UpdateInside(a: Sliding, sample: int, lo: int, hi: int)
    requires a.Valid() && a.count >= 1 && 0 <= lo <= sample <= hi
    requires 64 * lo <= a.mean <= 64 * hi && 0 <= a.deviation <= 64 * (hi - lo)
    ensures var b := Updated(a, sample);
      b.count >= 1 && 64 * lo <= b.mean <= 64 * hi && 0 <= b.deviation <= 64 * (hi - lo)
  {
    hide Trunc;
    var n := if a.count < a.gain then a.count + 1 else a.count;
    StepBetween(a.mean, sample * 64, n);
    if n > 1 {
      StepBetween(a.deviation, Abs(a.mean - sample * 64), n - 1);
    }
  }

  lemma TruncByOne(x: int)
    ensures Trunc(x, 1) == x
  {
  }

  /** The average never leaves the range of its samples, nor the deviation the range's width, for any
      samples and any gain: truncation and the rounding of the getters included. */
  lemma StaysInHull(gain: nat, samples: seq<int>, lo: int, hi: int)
    requires gain >= 1 && samples != [] && 0 <= lo && Within(samples, lo, hi)
    ensures lo <= After(gain, samples).Mean() <= hi
    ensures 0 <= After(gain, samples).Deviation() <= hi - lo
  {
    HullInside(gain, samples, lo, hi);
  }

  const MIN_TIMEOUT := 2000

  /** `request_timeout`, in milliseconds. */
  function RequestTimeout(a: Sliding): int {
    var t := a.Mean() + 4 * a.Deviation();
    if t < MIN_TIMEOUT then MIN_TIMEOUT else t
  }

  /** It is the least time that is two seconds and the mean with four deviations. */
  lemma TimeoutIsLeast(a: Sliding, t: int)
    ensures RequestTimeout(a) <= t <==> 2000 <= t && a.Mean() + 4 * a.Deviation() <= t
  {
  }

  /** Round trips between lo and hi milliseconds give a timeout of at least two seconds and of lo, and at
      most the larger of two seconds and hi + 4 (hi - lo). */
  lemma TimeoutBounded(gain: nat, samples: seq<int>, lo: int, hi: int)
    requires gain >= 1 && 0 <= lo && Within(samples, lo, hi)
    ensures RequestTimeout(After(gain, samples)) >= 2000
    ensures samples != [] ==> RequestTimeout(After(gain, samples)) >= lo
    ensures samples == [] ==> RequestTimeout(After(gain, samples)) == 2000
    ensures samples != [] ==> RequestTimeout(After(gain, samples)) <= if hi + 4 * (hi - lo) < 2000 then 2000 else hi + 4 * (hi - lo)
  {
    if samples != [] {
      StaysInHull(gain, samples, lo, hi);
    }
  }

  function Sum(samples: seq<int>): int {
    if samples == [] then 0 else Sum(samples[..|samples| - 1]) + samples[|samples| - 1]
  }

  /** Truncation loses less than the divisor. */
  lemma TruncError(x: int, n: int)
    requires n >= 1
    ensures Abs(x - n * Trunc(x, n)) <= n - 1
  {
    if x >= 0 {
      assert x == n * (x / n) + x % n;
    } else {
      assert -x == n * ((-x) / n) + (-x) % n;
      assert n * (-((-x) / n)) == -(n * ((-x) / n));
    }
  }

  lemma {:induction false} CountIs(gain: nat, samples: seq<int>)
    requires gain >= 1
    ensures After(gain, samples).count == if |samples| < gain then |samples| else gain
    decreases |samples|
  {
    if samples != [] {
      CountIs(gain, samples[..|samples| - 1]);
    }
  }

  /** Until the gain is reached all samples weigh the same: the mean is their plain average, but for a
      truncation error of less than half a 64th per sample. */
  lemma {:induction false} EarlySamplesWeighSame(gain: nat, samples: seq<int>)
    requires gain >= 1 && |samples| <= gain
    ensures 2 * Abs(|samples| * After(gain, samples).mean - 64 * Sum(samples)) <= |samples| * (|samples| - 1)
    decreases |samples|
  {
    hide Trunc;
    if samples != [] {
      var n := |samples|;
      var init, sample := samples[..n - 1], samples[n - 1];
      EarlySamplesWeighSame(gain, init);
      CountIs(gain, init);
      var before := After(gain, init).mean;
      var step := Trunc(sample * 64 - before, n);
      TruncError(sample * 64 - before, n);
      EarlyStep(n, before, sample, step, Sum(init));
    }
  }

  lemma EarlyStep(n: int, before: int, sample: int, step: int, sum: int)
    requires n >= 1 && Abs(sample * 64 - before - n * step) <= n - 1
    requires 2 * Abs((n - 1) * before - 64 * sum) <= (n - 1) * (n - 2)
    ensures 2 * Abs(n * (before + step) - 64 * (sum + sample)) <= n * (n - 1)
  {
    assert n * (before + step) - 64 * (sum + sample) == ((n - 1) * before - 64 * sum) - (sample * 64 - before - n * step);
    assert (n - 1) * (n - 2) + 2 * (n - 1) == n * (n - 1);
  }

  class SlidingAvg {
    var mean: int
    var deviation: int
    var sampleCount: nat
    const invertedGain: nat

    function View(): Sliding reads this { Sliding(mean, deviation, sampleCount, invertedGain) }

    constructor (invertedGain: nat)
      ensures View() == New(invertedGain)
    {
      this.mean, this.deviation, this.sampleCount, this.invertedGain := 0, 0, 0, invertedGain;
    }

    /** With a gain of zero the first sample divides by zero. */
    method Update(sample: int)
      requires View().Valid()
      modifies this
      ensures View() == Updated(old(View()), sample)
      ensures View().Valid()
      ensures sampleCount == (if old(sampleCount) + 1 < invertedGain then old(sampleCount) + 1 else invertedGain)
      ensures StepTo(old(mean), 64 * sample, sampleCount, mean)
      ensures if sampleCount == 1 then deviation == old(deviation)
        else StepTo(old(deviation), if old(sampleCount) == 0 then 0 else Abs(64 * sample - old(mean)), sampleCount - 1, deviation)
    {
      hide Trunc, StepTo;
      UpdateMoves(View(), sample);
      var s := sample * 64;
      var off := 0;
      if sampleCount > 0 {
        off := Abs(mean - s);
      }
      if sampleCount < invertedGain {
        sampleCount := sampleCount + 1;
      }
      mean := mean + Trunc(s - mean, sampleCount);
      if sampleCount > 1 {
        deviation := deviation + Trunc(off - deviation, sampleCount - 1);
      }
    }
  }
}
