/** Shrinking a measured rate toward the baseline (agent/evolution.py). */
module Evolution {
  import opened Reals

  const LESSON_MIN_SAMPLE: real := 20.0
  const WEIGHT_FLOOR: real := 0.5
  const WEIGHT_CEILING: real := 2.0

  function Clamp(x: real): real {
    var capped := if x < WEIGHT_CEILING then x else WEIGHT_CEILING;
    if capped > WEIGHT_FLOOR then capped else WEIGHT_FLOOR
  }

  function ShrunkWeight(bucketRate: real, baselineRate: real, sampleSize: int): real {
    if baselineRate <= 0.0 || sampleSize <= 0 then 1.0
    else
      var n := sampleSize as real;
      var estimate := (n * bucketRate + LESSON_MIN_SAMPLE * baselineRate) / (n + LESSON_MIN_SAMPLE);
      Clamp(estimate / baselineRate)
  }

  /** How far a sample of `n` is trusted against the baseline: from 0, for no sample, toward 1. */
  function Trust(n: int): real
    requires n > 0
  {
    n as real / (n as real + LESSON_MIN_SAMPLE)
  }

  /** The baseline's own weight, 1, moved by a share of the relative deviation and kept in the band. */
  function Shifted(share: real, deviation: real): real { Clamp(1.0 + share * deviation) }

  lemma DivideOnce(x: real, y: real, z: real)
    requires y != 0.0 && z * y == x
    ensures x / y == z
  {
    Cancel(x, y);
  }

  /** The weight is 1 shifted by the trusted share of the relative deviation. */
  lemma WeightIsTrustedDeviation(rate: real, baseline: real, n: int)
    requires baseline > 0.0 && n > 0
    ensures ShrunkWeight(rate, baseline, n) == Shifted(Trust(n), rate / baseline - 1.0)
  {
    var m := n as real;
    var total := m + LESSON_MIN_SAMPLE;
    var ratio := rate / baseline;
    var estimate := (m * rate + LESSON_MIN_SAMPLE * baseline) / total;
    var moved := 1.0 + Trust(n) * (ratio - 1.0);
    Cancel(rate, baseline);
    Cancel(m, total);
    calc {
      moved * total;
    ==
      total + (Trust(n) * total) * (ratio - 1.0);
    ==
      m * ratio + LESSON_MIN_SAMPLE;
    }
    calc {
      (moved * baseline) * total;
    ==
      (moved * total) * baseline;
    ==
      m * (ratio * baseline) + LESSON_MIN_SAMPLE * baseline;
    }
    DivideOnce(m * rate + LESSON_MIN_SAMPLE * baseline, total, moved * baseline);
    DivideOnce(estimate, baseline, moved);
    assert ShrunkWeight(rate, baseline, n) == Clamp(estimate / baseline);
  }

  /** In figures: one plus n out of n + 20 of the relative deviation, held between a half and two; and one
      when there is nothing to measure. */
  lemma WeightInFigures(rate: real, baseline: real, n: int)
    ensures baseline <= 0.0 || n <= 0 ==> ShrunkWeight(rate, baseline, n) == 1.0
    ensures baseline > 0.0 && n > 0 ==>
              var moved := 1.0 + (n as real / (n as real + 20.0)) * (rate / baseline - 1.0);
              && (moved <= 0.5 ==> ShrunkWeight(rate, baseline, n) == 0.5)
              && (moved >= 2.0 ==> ShrunkWeight(rate, baseline, n) == 2.0)
              && (0.5 <= moved <= 2.0 ==> ShrunkWeight(rate, baseline, n) == moved)
  {
    if baseline > 0.0 && n > 0 {
      WeightIsTrustedDeviation(rate, baseline, n);
    }
  }

  lemma TrustBounds(n: int)
    requires n > 0
    ensures 0.0 < Trust(n) < 1.0
  {
  }

  /** A larger sample is trusted more. */
  lemma TrustGrows(n: int, m: int)
    requires 0 < n <= m
    ensures Trust(n) <= Trust(m)
  {
    var x, y := n as real, m as real;
    Cancel(x, x + LESSON_MIN_SAMPLE);
    Cancel(y, y + LESSON_MIN_SAMPLE);
    assert Trust(n) == 1.0 - LESSON_MIN_SAMPLE / (x + LESSON_MIN_SAMPLE);
    assert Trust(m) == 1.0 - LESSON_MIN_SAMPLE / (y + LESSON_MIN_SAMPLE);
  }

  lemma Scale(k: real, x: real, y: real)
    requires k >= 0.0 && x <= y
    ensures k * x <= k * y
  {
  }

  lemma RatioOrder(x: real, y: real, baseline: real)
    requires baseline > 0.0 && x <= y
    ensures x / baseline <= y / baseline
  {
  }

  lemma ShiftIsMonotone(k: real, d: real, e: real)
    requires k >= 0.0 && d <= e
    ensures Shifted(k, d) <= Shifted(k, e)
  {
    Scale(k, d, e);
  }

  lemma ShiftIsBounded(k: real, d: real)
    requires k >= 0.0
    ensures Abs(Shifted(k, d) - 1.0) <= k * Abs(d)
  {
    NonNegative(k, Abs(d));
    assert d < 0.0 ==> k * Abs(d) == -(k * d);
  }

  lemma LargerShareMovesFurther(k: real, l: real, d: real)
    requires 0.0 <= k <= l
    ensures d >= 0.0 ==> 1.0 <= Shifted(k, d) <= Shifted(l, d)
    ensures d <= 0.0 ==> Shifted(l, d) <= Shifted(k, d) <= 1.0
  {
    NonNegative(k, Abs(d));
    NonNegative(l - k, Abs(d));
    assert (l - k) * Abs(d) == l * Abs(d) - k * Abs(d);
    assert d < 0.0 ==> k * Abs(d) == -(k * d) && l * Abs(d) == -(l * d);
  }

  /** No run of luck and no bias takes a weight out of its band. */
  lemma WeightStaysInBand(rate: real, baseline: real, n: int)
    ensures 0.5 <= ShrunkWeight(rate, baseline, n) <= 2.0
  {
  }

  lemma WeightIsMonotone(low: real, high: real, baseline: real, n: int)
    requires low <= high
    ensures ShrunkWeight(low, baseline, n) <= ShrunkWeight(high, baseline, n)
  {
    if baseline > 0.0 && n > 0 {
      WeightIsTrustedDeviation(low, baseline, n);
      WeightIsTrustedDeviation(high, baseline, n);
      TrustBounds(n);
      RatioOrder(low, high, baseline);
      ShiftIsMonotone(Trust(n), low / baseline - 1.0, high / baseline - 1.0);
    }
  }

  lemma DeviationSign(rate: real, baseline: real)
    requires baseline > 0.0
    ensures rate >= baseline <==> rate / baseline - 1.0 >= 0.0
    ensures rate <= baseline <==> rate / baseline - 1.0 <= 0.0
  {
    Cancel(rate, baseline);
  }

  lemma ScaledSign(k: real, d: real)
    requires k > 0.0
    ensures d > 0.0 ==> k * d > 0.0
    ensures d < 0.0 ==> k * d < 0.0
    ensures d == 0.0 ==> k * d == 0.0
  {
  }

  /** The weight is 1 at the baseline, and otherwise on the rate's own side of 1. */
  lemma WeightSidesWithRate(rate: real, baseline: real, n: int)
    requires baseline > 0.0
    ensures rate == baseline ==> ShrunkWeight(rate, baseline, n) == 1.0
    ensures rate > baseline ==> ShrunkWeight(rate, baseline, n) >= 1.0
    ensures rate < baseline ==> ShrunkWeight(rate, baseline, n) <= 1.0
    ensures n > 0 ==> (rate == baseline <==> ShrunkWeight(rate, baseline, n) == 1.0)
  {
    if n > 0 {
      WeightIsTrustedDeviation(rate, baseline, n);
      TrustBounds(n);
      Cancel(rate, baseline);
      ScaledSign(Trust(n), rate / baseline - 1.0);
      DeviationSign(rate, baseline);
    }
  }

  /** A small sample moves a weight by at most its trusted share of the deviation. */
  lemma WeightMovesByAtMostTrust(rate: real, baseline: real, n: int)
    requires baseline > 0.0 && n > 0
    ensures Abs(ShrunkWeight(rate, baseline, n) - 1.0)
         <= (n as real / (n as real + 20.0)) * Abs(rate / baseline - 1.0)
  {
    WeightIsTrustedDeviation(rate, baseline, n);
    TrustBounds(n);
    ShiftIsBounded(Trust(n), rate / baseline - 1.0);
  }

  /** At a fixed rate, more evidence never pulls the weight back toward 1. */
  lemma EvidenceMovesAway(rate: real, baseline: real, n: int, m: int)
    requires baseline > 0.0 && 0 < n <= m
    ensures rate >= baseline ==> 1.0 <= ShrunkWeight(rate, baseline, n) <= ShrunkWeight(rate, baseline, m)
    ensures rate <= baseline ==> ShrunkWeight(rate, baseline, m) <= ShrunkWeight(rate, baseline, n) <= 1.0
  {
    WeightIsTrustedDeviation(rate, baseline, n);
    WeightIsTrustedDeviation(rate, baseline, m);
    DeviationSign(rate, baseline);
    TrustBounds(n);
    TrustGrows(n, m);
    LargerShareMovesFurther(Trust(n), Trust(m), rate / baseline - 1.0);
  }
}
