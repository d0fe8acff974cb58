/**
 What the skews mean in terms of the counts alone: on which side of the average a broker stands, how far the
 rounded percentage is from the exact one, and what that says about the moves of a run.
 */
module SkewLaws {
  import opened Rounding
  import opened Rebalance

  // ----- the sign -----

  /** A count and its hundredfold are numbers of the type. */
  predicate Representable(count: int) {
    -EXACT <= 100.0 * count as real <= EXACT
  }

  lemma IntegerStays(fl: Float, k: int)
    requires -EXACT <= k as real <= EXACT
    ensures fl(k as real) == k as real && Round(k as real) == k
  {
    assert (k as real).Floor == k;
    assert At(fl, k as real) == k as real;
  }

  lemma CountIsItsOwnDecimal(fl: Float, count: int)
    requires Representable(count)
    ensures fl(count as real) == count as real && RoundTo2Decimals(fl, count as real) == count as real
  {
    IntegerStays(fl, count);
    IntegerStays(fl, 100 * count);
    assert count as real * 100.0 == (100 * count) as real;
    assert (100 * count) as real / 100.0 == count as real;
  }

  lemma QuotientIsBelow(sum: int, n: nat, count: int)
    requires n > 0
    ensures n * count >= sum ==> sum as real / n as real <= count as real
    ensures n * count <= sum ==> sum as real / n as real >= count as real
  {
    var q := sum as real / n as real;
    assert q * n as real == sum as real;
    assert (n * count) as real == n as real * count as real;
  }

  lemma AverageIsOnThatSide(fl: Float, count: int, sum: int, n: nat)
    requires n > 0 && Representable(count)
    ensures n * count >= sum ==> Average(fl, sum, n) <= count as real
    ensures n * count <= sum ==> Average(fl, sum, n) >= count as real
  {
    var q, k := sum as real / n as real, count as real;
    QuotientIsBelow(sum, n, count);
    CountIsItsOwnDecimal(fl, count);
    if n * count >= sum {
      KeepsOrder(fl, q, k);
      DecimalsAreMonotone(fl, fl(q), k);
    }
    if n * count <= sum {
      KeepsOrder(fl, k, q);
      DecimalsAreMonotone(fl, k, fl(q));
    }
  }

  lemma ShareHasTheSign(fl: Float, x: real, max: real)
    requires max >= 0.0
    ensures x >= 0.0 ==> Share(fl, fl(x), max) >= 0
    ensures x <= 0.0 ==> Share(fl, fl(x), max) <= 0
  {
    WholeStays(fl, 0);
    if x >= 0.0 {
      KeepsOrder(fl, 0.0, x);
      ShareIsMonotone(fl, 0.0, fl(x), max);
    }
    if x <= 0.0 {
      KeepsOrder(fl, x, 0.0);
      ShareIsMonotone(fl, fl(x), 0.0, max);
    }
  }

  /** Whatever the rounding, brokers at or above the average are never negative, those at or below never positive. */
  lemma SkewHasTheSign(fl: Float, count: int, sum: int, n: nat, global: nat)
    requires n > 0 && Representable(count)
    ensures n * count >= sum ==> SkewOf(fl, count, sum, n, global) >= 0
    ensures n * count <= sum ==> SkewOf(fl, count, sum, n, global) <= 0
  {
    AverageIsOnThatSide(fl, count, sum, n);
    MaxSkewIsNotNegative(fl, sum, n, global);
    ShareHasTheSign(fl, count as real - Average(fl, sum, n), MaxSkew(fl, sum, n, global));
  }

  lemma {:induction false} SumIsBetween(t: seq<int>, low: int, high: int)
    requires Between(t, low, high)
    ensures |t| * low <= Sum(t) <= |t| * high
  {
    if t != [] {
      assert forall i :: 0 <= i < |t[1..]| ==> t[1..][i] == t[i + 1];
      SumIsBetween(t[1..], low, high);
    }
  }

  /** Brokers with equal counts all have skew zero, so nothing moves. */
  lemma EvenLoadHasNoSkew(c: Config, t: seq<int>, count: int, id: int)
    requires |t| == c.n && Tracked(c, id) && Between(t, count, count) && Representable(count)
    ensures Skew(c, t, id) == 0
  {
    SumIsBetween(t, count, count);
    SkewHasTheSign(c.fl, count, Sum(t), c.n, c.global);
  }

  // ----- the size, without rounding errors -----

  /** The larger of the average and the room above it. */
  function LargestDifference(average: real, global: nat): real {
    if average >= global as real - average then average else global as real - average
  }

  /** The percentage by which a count exceeds the average, before any rounding. */
  function ExactSkew(count: int, sum: int, n: nat, global: nat): real
    requires n > 0 && global > 0
  {
    var average := sum as real / n as real;
    100.0 * ((count as real - average) / LargestDifference(average, global))
  }

  lemma DecimalIsNear(fl: Float, x: real)
    requires Unrounded(fl)
    ensures -0.005 <= RoundTo2Decimals(fl, x) - x <= 0.005
  {
    UnroundedStays(fl, x * 100.0);
    UnroundedStays(fl, Round(x * 100.0) as real / 100.0);
    RoundIsNearest(x * 100.0);
  }

  /** `x` and `y` are at most `d` apart. */
  ghost predicate Within(x: real, y: real, d: real) {
    -d <= x - y <= d
  }

  lemma ProductIsInside(p: real, d: real)
    requires -1.0 <= p <= 1.0 && -0.005 <= d <= 0.005
    ensures -0.005 <= p * d <= 0.005
  {
    if d >= 0.0 {
      assert -d <= p * d <= d;
    } else {
      assert d <= p * d <= -d;
    }
  }

  lemma FactorIsInside(d: real, max: real)
    requires max > 0.0 && -0.01 <= d * max <= 0.01
    ensures -(1.0 / max) <= 100.0 * d <= 1.0 / max
  {
    var r := 1.0 / max;
    assert r * max == 1.0 && r > 0.0;
    assert 100.0 * d == 100.0 * (d * max) * r;
    assert -1.0 * r <= 100.0 * (d * max) * r <= 1.0 * r;
  }

  /** Two shares of nearly the same difference in nearly the same whole. */
  lemma SharesAreNear(x: real, x': real, max: real, max': real)
    requires max > 0.0 && max' > 0.0 && -max <= x <= max
    requires -0.005 <= x' - x <= 0.005 && -0.005 <= max' - max <= 0.005
    ensures Within(100.0 * (x / max), 100.0 * (x' / max'), 1.0 / max')
  {
    var p, q := x / max, x' / max';
    ShareIsInside(x, max);
    assert p * max == x && q * max' == x';
    var d := max' - max;
    ProductIsInside(p, d);
    assert (p - q) * max' == p * d + (x - x');
    FactorIsInside(p - q, max');
  }

  lemma ShareIsTheRoundedShare(fl: Float, x: real, max: real)
    requires Unrounded(fl) && max > 0.0
    ensures Within(Share(fl, x, max) as real, 100.0 * (x / max), 0.5)
  {
    var p := x / max;
    UnroundedStays(fl, p);
    if x != 0.0 {
      PercentageIsExact(fl, p);
      RoundIsNearest(p * 100.0);
    }
  }

  lemma LargestDifferencesAreNear(a: real, b: real, global: nat)
    requires -0.005 <= a - b <= 0.005 && global > 0
    ensures LargestDifference(a, global) > 0.0
    ensures -0.005 <= LargestDifference(a, global) - LargestDifference(b, global) <= 0.005
  {
  }

  lemma MaxSkewIs(fl: Float, sum: int, n: nat, global: nat)
    requires Unrounded(fl)
    ensures MaxSkew(fl, sum, n, global) == LargestDifference(Average(fl, sum, n), global)
  {
    UnroundedStays(fl, global as real - Average(fl, sum, n));
  }

  /**
   Without rounding errors the skew is within a half, and a hundredth of a replica in the largest difference, of
   the exact percentage.
   */
  lemma SkewIsNear(fl: Float, count: int, sum: int, n: nat, global: nat)
    requires Unrounded(fl) && n > 0 && 0 <= count <= global && global > 0
    ensures LargestDifference(sum as real / n as real, global) > 0.0
    ensures Within(SkewOf(fl, count, sum, n, global) as real, ExactSkew(count, sum, n, global),
                   0.5 + 1.0 / LargestDifference(sum as real / n as real, global))
  {
    var average, rounded := sum as real / n as real, Average(fl, sum, n);
    UnroundedStays(fl, average);
    DecimalIsNear(fl, average);
    LargestDifferencesAreNear(average, rounded, global);
    LargestDifferencesAreNear(rounded, rounded, global);
    var x, x' := count as real - rounded, count as real - average;
    var max, max' := LargestDifference(rounded, global), LargestDifference(average, global);
    MaxSkewIs(fl, sum, n, global);
    UnroundedStays(fl, x);
    ShareIsTheRoundedShare(fl, x, max);
    SharesAreNear(x, x', max, max');
  }
}
