/** Decimal rounding as the partition rebalancer uses it, in floating-point arithmetic. */
module Rounding {

  /** The largest number up to which `float64` has every integer. */
  const EXACT := 9007199254740992.0

  /** A rounded result, named so that facts about rounding are used only where they are asked for. */
  function At(fl: real -> real, x: real): real {
    fl(x)
  }

  /**
   How a result of floating-point arithmetic is rounded to a number of the type: order and signs are kept,
   and integers and numbers of the type stay. Rounding to nearest is one such function, no rounding another.
   */
  ghost predicate Rounds(fl: real -> real) {
    && (forall x, y :: x <= y ==> At(fl, x) <= At(fl, y))
    && (forall x, y :: x == -y ==> At(fl, x) == -At(fl, y))
    && (forall x :: At(fl, At(fl, x)) == At(fl, x))
    && (forall x :: -EXACT <= x <= EXACT && x.Floor as real == x ==> At(fl, x) == x)
  }

  type Float = fl: real -> real | Rounds(fl) witness (x: real) => x

  /** `math.Round`: nearest integer, halves away from zero. */
  function Round(x: real): int {
    if x >= 0.0 then (x + 0.5).Floor else -((0.5 - x).Floor)
  }

  /** The float-to-integer conversion of Go: drops the fraction. */
  function Truncate(x: real): int {
    if x >= 0.0 then x.Floor else -((-x).Floor)
  }

  function RoundTo2Decimals(fl: Float, x: real): real {
    fl(Round(fl(x * 100.0)) as real / 100.0)
  }

  /** A share as an integer percentage. */
  function Percentage(fl: Float, x: real): int {
    Truncate(fl(RoundTo2Decimals(fl, x) * 100.0))
  }

  lemma KeepsOrder(fl: Float, x: real, y: real)
    requires x <= y
    ensures fl(x) <= fl(y)
  {
    assert At(fl, x) <= At(fl, y);
  }

  lemma KeepsSigns(fl: Float, x: real)
    ensures fl(-x) == -fl(x)
  {
    assert At(fl, -x) == -At(fl, x);
  }

  lemma KeepsFloats(fl: Float, x: real)
    ensures fl(fl(x)) == fl(x)
  {
    assert At(fl, At(fl, x)) == At(fl, x);
  }

  lemma WholeStays(fl: Float, k: int)
    requires -100 <= k <= 100
    ensures fl(k as real) == k as real && Round(k as real) == k && Truncate(k as real) == k
  {
    assert (k as real).Floor == k;
    assert At(fl, k as real) == k as real;
  }

  /** The nearest integer; of two at the same distance the one farther from zero. */
  lemma RoundIsNearest(x: real)
    ensures -0.5 <= Round(x) as real - x <= 0.5
    ensures Round(x) as real - x == 0.5 ==> x >= 0.0
    ensures Round(x) as real - x == -0.5 ==> x <= 0.0
  {
  }

  lemma RoundIsMonotone(x: real, y: real)
    requires x <= y
    ensures Round(x) <= Round(y) && Truncate(x) <= Truncate(y)
  {
  }

  lemma DecimalsAreMonotone(fl: Float, x: real, y: real)
    requires x <= y
    ensures RoundTo2Decimals(fl, x) <= RoundTo2Decimals(fl, y)
  {
    KeepsOrder(fl, x * 100.0, y * 100.0);
    RoundIsMonotone(fl(x * 100.0), fl(y * 100.0));
    KeepsOrder(fl, Round(fl(x * 100.0)) as real / 100.0, Round(fl(y * 100.0)) as real / 100.0);
  }

  lemma ConversionIsMonotone(fl: Float, x: real, y: real)
    requires x <= y
    ensures Truncate(fl(x * 100.0)) <= Truncate(fl(y * 100.0))
  {
    KeepsOrder(fl, x * 100.0, y * 100.0);
    RoundIsMonotone(fl(x * 100.0), fl(y * 100.0));
  }

  /** Neither the roundings nor the conversion reverse an order. */
  lemma PercentageIsMonotone(fl: Float, x: real, y: real)
    requires x <= y
    ensures Percentage(fl, x) <= Percentage(fl, y)
  {
    DecimalsAreMonotone(fl, x, y);
    ConversionIsMonotone(fl, RoundTo2Decimals(fl, x), RoundTo2Decimals(fl, y));
  }

  lemma PercentageOfWhole(fl: Float, k: int)
    requires -1 <= k <= 1
    ensures Percentage(fl, k as real) == 100 * k
  {
    WholeStays(fl, k);
    WholeStays(fl, 100 * k);
    assert k as real * 100.0 == (100 * k) as real;
    assert (100 * k) as real / 100.0 == k as real;
  }

  /** A share of at most one is a percentage of at most 100. */
  lemma PercentageIsWithin100(fl: Float, x: real)
    requires -1.0 <= x <= 1.0
    ensures -100 <= Percentage(fl, x) <= 100
  {
    PercentageIsMonotone(fl, x, 1.0);
    PercentageIsMonotone(fl, -1.0, x);
    PercentageOfWhole(fl, 1);
    PercentageOfWhole(fl, -1);
    assert -1.0 == (-1) as real;
  }

  // ----- how far the percentage can be off -----

  /** Results of ordinary size are off by at most one part in a thousand, as those of `float64` by far are. */
  ghost predicate Close(fl: real -> real) {
    forall x :: 0.001 <= x <= 1000.0 ==> 0.999 * x <= At(fl, x) <= 1.001 * x
  }

  lemma TwiceClose(fl: Float, x: real)
    requires Close(fl) && 1.0 <= x <= 100.0
    ensures 0.997 * x <= fl(fl(x / 100.0) * 100.0) <= 1.003 * x
  {
    var y := At(fl, x / 100.0);
    assert 0.999 * (x / 100.0) <= y <= 1.001 * (x / 100.0);
    assert 0.999 * (y * 100.0) <= At(fl, y * 100.0) <= 1.001 * (y * 100.0);
  }

  lemma PercentageIsOdd(fl: Float, x: real)
    ensures Round(fl(-x * 100.0)) == -Round(fl(x * 100.0)) && Percentage(fl, -x) == -Percentage(fl, x)
  {
    var k := Round(fl(x * 100.0));
    assert -x * 100.0 == -(x * 100.0);
    KeepsSigns(fl, x * 100.0);
    var p := k as real / 100.0;
    assert (-k) as real / 100.0 == -p;
    KeepsSigns(fl, p);
    assert -fl(p) * 100.0 == -(fl(p) * 100.0);
    KeepsSigns(fl, fl(p) * 100.0);
  }

  lemma SharesLoseAtMostOne(fl: Float, x: real)
    requires Close(fl) && 0.0 <= x <= 1.0
    ensures var k := Round(fl(x * 100.0)); 0 <= k && k - 1 <= Percentage(fl, x) <= k
  {
    var k := Round(fl(x * 100.0));
    WholeStays(fl, 0);
    WholeStays(fl, 100);
    KeepsOrder(fl, 0.0, x * 100.0);
    KeepsOrder(fl, x * 100.0, 100.0);
    RoundIsMonotone(0.0, fl(x * 100.0));
    RoundIsMonotone(fl(x * 100.0), 100.0);
    if k > 0 {
      TwiceClose(fl, k as real);
      var z := fl(RoundTo2Decimals(fl, x) * 100.0);
      assert k as real - 1.0 < z < k as real + 1.0;
    }
  }

  /** The conversion of the rounded percentage loses at most one, towards zero. */
  lemma PercentageLosesAtMostOne(fl: Float, x: real)
    requires Close(fl) && -1.0 <= x <= 1.0
    ensures var k, p := Round(fl(x * 100.0)), Percentage(fl, x);
      if x >= 0.0 then k - 1 <= p <= k else k <= p <= k + 1
  {
    if x >= 0.0 {
      SharesLoseAtMostOne(fl, x);
    } else {
      SharesLoseAtMostOne(fl, -x);
      PercentageIsOdd(fl, x);
    }
  }

  /** Arithmetic without rounding errors. */
  ghost predicate Unrounded(fl: real -> real) {
    forall x :: At(fl, x) == x
  }

  lemma UnroundedStays(fl: Float, x: real)
    requires Unrounded(fl)
    ensures fl(x) == x
  {
    assert At(fl, x) == x;
  }

  /** Without rounding errors the conversion loses nothing. */
  lemma PercentageIsExact(fl: Float, x: real)
    requires Unrounded(fl)
    ensures Percentage(fl, x) == Round(x * 100.0)
  {
    var k := Round(x * 100.0);
    UnroundedStays(fl, x * 100.0);
    UnroundedStays(fl, k as real / 100.0);
    assert k as real / 100.0 * 100.0 == k as real;
    UnroundedStays(fl, k as real);
  }
}
