/** The weighted rate counter (cratetorrent/src/counter.rs), with its floats as reals. */
module Counters {
  /** The running average after the rounds, as `reset` computes it round by round. */
  function Average(rounds: seq<nat>): real {
    if rounds == [] then 0.0
    else Average(rounds[..|rounds| - 1]) * 4.0 / 5.0 + rounds[|rounds| - 1] as real / 5.0
  }

  /** The largest average so far. */
  function Peak(rounds: seq<nat>): real {
    if rounds == [] then 0.0
    else
      var before := Peak(rounds[..|rounds| - 1]);
      if Average(rounds) > before then Average(rounds) else before
  }

  function Total(rounds: seq<nat>): nat {
    if rounds == [] then 0 else Total(rounds[..|rounds| - 1]) + rounds[|rounds| - 1]
  }

  function Decay(k: nat): real {
    if k == 0 then 1.0 else Decay(k - 1) * 4.0 / 5.0
  }

  /** The sum of the rounds from i on, each a fifth of its bytes, worn down by four fifths for every
      round that followed it. */
  function Weighted(rounds: seq<nat>, i: nat): real
    requires i <= |rounds|
    decreases |rounds| - i
  {
    if i == |rounds| then 0.0
    else rounds[i] as real / 5.0 * Decay(|rounds| - 1 - i) + Weighted(rounds, i + 1)
  }

  lemma {:induction false} WeightedSnoc(rounds: seq<nat>, last: nat, i: nat)
    requires i <= |rounds|
    ensures Weighted(rounds + [last], i) == Weighted(rounds, i) * 4.0 / 5.0 + last as real / 5.0
    decreases |rounds| - i
  {
    if i < |rounds| {
      WeightedSnoc(rounds, last, i + 1);
      var a := rounds[i] as real / 5.0;
      var d := Decay(|rounds| - 1 - i);
      assert Decay(|rounds| - i) == d * 4.0 / 5.0;
      assert a * (d * 4.0 / 5.0) == a * d * 4.0 / 5.0;
    } else {
      assert Weighted(rounds + [last], i + 1) == 0.0;
      assert Decay(0) == 1.0;
    }
  }

  /** The average is the weighted sum of all past rounds. */
  lemma {:induction false} AverageIsWeightedSum(rounds: seq<nat>)
    ensures Average(rounds) == Weighted(rounds, 0)
    decreases |rounds|
  {
    if rounds != [] {
      var n := |rounds| - 1;
      AverageIsWeightedSum(rounds[..n]);
      WeightedSnoc(rounds[..n], rounds[n], 0);
      assert rounds == rounds[..n] + [rounds[n]];
    }
  }

  lemma {:induction false} DecayPositive(k: nat)
    ensures 0.0 < Decay(k) <= 1.0
  {
    if k > 0 { DecayPositive(k - 1); }
  }

  predicate AtMost(rounds: seq<nat>, max: nat) {
    forall k :: 0 <= k < |rounds| ==> rounds[k] <= max
  }

  /** No round of at most `max` bytes takes the average past `max`; it stays below by what is left of
      the initial zero. */
  lemma {:induction false} AverageBounded(rounds: seq<nat>, max: nat)
    requires AtMost(rounds, max)
    ensures 0.0 <= Average(rounds) <= max as real * (1.0 - Decay(|rounds|)) <= max as real
    decreases |rounds|
  {
    DecayPositive(|rounds|);
    if rounds != [] {
      var n := |rounds| - 1;
      AverageBounded(rounds[..n], max);
      BoundStep(Average(rounds[..n]), max as real, Decay(n), rounds[n] as real);
    }
    MulLess(max as real, Decay(|rounds|));
  }

  lemma MulLess(m: real, d: real)
    requires m >= 0.0 && 0.0 < d <= 1.0
    ensures m * (1.0 - d) <= m
  {
  }

  lemma BoundStep(a: real, m: real, d: real, r: real)
    requires a <= m * (1.0 - d) && r <= m
    ensures a * 4.0 / 5.0 + r / 5.0 <= m * (1.0 - d * 4.0 / 5.0)
  {
    assert m * (1.0 - d * 4.0 / 5.0) == m * (1.0 - d) * 4.0 / 5.0 + m / 5.0;
  }

  /** The peak is the average after some prefix of the rounds, and no prefix has a larger one. */
  lemma {:induction false} PeakIsLargest(rounds: seq<nat>, k: nat) returns (at: nat)
    requires k <= |rounds|
    ensures Average(rounds[..k]) <= Peak(rounds)
    ensures at <= |rounds| && Peak(rounds) == Average(rounds[..at])
    decreases |rounds|
  {
    if rounds == [] {
      at := 0;
    } else {
      var n := |rounds| - 1;
      at := PeakIsLargest(rounds[..n], if k <= n then k else n);
      assert rounds[..n][..at] == rounds[..at];
      assert k <= n ==> rounds[..n][..k] == rounds[..k];
      assert rounds[..|rounds|] == rounds;
      if Average(rounds) > Peak(rounds[..n]) { at := |rounds|; }
    }
  }

  /** The average is never above the peak, nor the peak above the largest round. */
  lemma PeakBetween(rounds: seq<nat>, max: nat)
    requires AtMost(rounds, max)
    ensures Average(rounds) <= Peak(rounds) <= max as real
  {
    var at := PeakIsLargest(rounds, |rounds|);
    assert rounds[..|rounds|] == rounds;
    AverageBounded(rounds[..at], max);
  }

  /** `f64::round` followed by the cast to u64, for numbers that are not negative. */
  function Rounded(x: real): nat
    requires x >= 0.0
  {
    (x + 0.5).Floor
  }

  /** It is the nearest number. */
  lemma Nearest(x: real)
    requires x >= 0.0
    ensures x - 0.5 < Rounded(x) as real <= x + 0.5
  {
  }

  lemma RoundedAtMost(x: real, max: nat)
    requires 0.0 <= x <= max as real
    ensures Rounded(x) <= max
  {
  }

  lemma OneMore(rounds: seq<nat>, r: nat)
    ensures Average(rounds + [r]) == Average(rounds) * 4.0 / 5.0 + r as real / 5.0
    ensures Peak(rounds + [r]) == if Average(rounds + [r]) > Peak(rounds) then Average(rounds + [r]) else Peak(rounds)
    ensures Total(rounds + [r]) == Total(rounds) + r
  {
    assert (rounds + [r])[..|rounds|] == rounds;
  }

  class Counter {
    var total: nat
    var round: nat
    var avg: real
    var peak: real
    /** The rounds that are over, oldest first. */
    ghost var rounds: seq<nat>

    /** The counter tells what was added: all of it, this round's, and the averages of the rounds over. */
    ghost predicate Valid()
      reads this
    {
      total == Total(rounds) + round && avg == Average(rounds) && peak == Peak(rounds)
    }

    constructor ()
      ensures Valid() && rounds == [] && round == 0
    {
      total, round, avg, peak, rounds := 0, 0, 0.0, 0.0, [];
    }

    method Add(bytes: nat)
      requires Valid()
      modifies this
      ensures Valid() && total == old(total) + bytes && round == old(round) + bytes && rounds == old(rounds)
    {
      total := total + bytes;
      round := round + bytes;
    }

    /** Ends the round. */
    method Reset()
      requires Valid()
      modifies this
      ensures avg == old(avg) * 4.0 / 5.0 + old(round) as real / 5.0 && peak == if avg > old(peak) then avg else old(peak)
      ensures Valid() && round == 0 && rounds == old(rounds) + [old(round)] && total == old(total)
    {
      hide Average, Peak, Total;
      OneMore(rounds, round);
      avg := (avg * 4.0 / 5.0) + (round as real / 5.0);
      rounds := rounds + [round];
      round := 0;
      if avg > peak {
        peak := avg;
      }
    }

    /** The average as an integer: no more than the largest round over. */
    method Avg(ghost max: nat) returns (rate: nat)
      requires Valid() && AtMost(rounds, max)
      ensures avg >= 0.0 && rate == Rounded(avg) <= max && avg - 0.5 < rate as real <= avg + 0.5
    {
      AverageBounded(rounds, max);
      RoundedAtMost(avg, max);
      rate := Rounded(avg);
    }
  }
}
