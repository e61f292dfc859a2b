/**
 * The chart-series helpers: a synthetic monthly series that runs from a
 * start value to an end value, and the trailing simple moving average drawn
 * over price charts.
 *
 * `Math.sin` and `Math.random` are not modelled: the caller passes, per
 * index `i`, the value `waves[i]` of `Math.sin((i / points) * PI * 6)` and the
 * value `rands[i]` that `Math.random()` returned.
 */
module ChartData {
  import opened Js

  /** One slot of the moving-average line: `null`, a rounded mean, or `NaN`. */
  datatype Smoothed = Null | Mean(value: int) | NaN

  // ---------------------------------------------------------------------
  // generateMonthlyData
  // ---------------------------------------------------------------------

  /**
   * The value pushed for index `i` of a series of `points >= 2` values. For a
   * sine value in [-1, 1] and a draw in [0, 1] it stays within the oscillation
   * amplitude, plus the noise amplitude, plus one half of rounding, of the
   * straight line from start to end.
   */
  function MonthlyValue(startValue: int, endValue: int, points: int, i: int, wave: real, rand: real): (r: int)
    requires points >= 2
    ensures -1.0 <= wave <= 1.0 && 0.0 <= rand <= 1.0 ==>
              var line := startValue as real + (endValue - startValue) as real * (i as real / (points - 1) as real);
              var spread := Abs((endValue - startValue) as real) * 0.08 + Abs(endValue as real) * 0.015 + 0.5;
              line - spread <= r as real <= line + spread
  {
    var progress := i as real / (points - 1) as real;
    var linearValue := startValue as real + (endValue - startValue) as real * progress;
    var volatility := wave * ((endValue - startValue) as real * 0.08);
    var noise := (rand - 0.5) * (endValue as real * 0.03);
    assert -1.0 <= wave <= 1.0 && 0.0 <= rand <= 1.0 ==>
             -(Abs((endValue - startValue) as real) * 0.08) <= volatility <= Abs((endValue - startValue) as real) * 0.08 &&
             -(Abs(endValue as real) * 0.015) <= noise <= Abs(endValue as real) * 0.015 by {
      if -1.0 <= wave <= 1.0 && 0.0 <= rand <= 1.0 {
        var span := (endValue - startValue) as real * 0.08;
        var amp := endValue as real * 0.03;
        BoundedProduct(wave, 1.0, span);
        BoundedProduct(rand - 0.5, 0.5, amp);
        assert Abs(span) == Abs((endValue - startValue) as real) * 0.08;
        assert 0.5 * Abs(amp) == Abs(endValue as real) * 0.015;
      }
    }
    Round(linearValue + volatility + noise)
  }

  /**
   * Pushes one value per index and then overwrites the last slot with
   * `endValue`. For `points <= 0` the loop does not run and the final store
   * goes to a non-index property, so the series is empty; for `points == 1`
   * the NaN that `0 / 0` produces is overwritten by `endValue`.
   */
  method GenerateMonthlyData(startValue: int, endValue: int, points: int, waves: seq<real>, rands: seq<real>)
    returns (data: seq<int>)
    requires |waves| >= points && |rands| >= points
    ensures |data| == Max(points, 0)
    ensures points >= 1 ==> data[points - 1] == endValue
    ensures forall i :: 0 <= i < points - 1 ==>
              data[i] == MonthlyValue(startValue, endValue, points, i, waves[i], rands[i])
  {
    data := [];
    var i := 0;
    while i < points
      invariant 0 <= i <= Max(points, 0)
      invariant |data| == i
      invariant forall k :: 0 <= k < i && points >= 2 ==>
                  data[k] == MonthlyValue(startValue, endValue, points, k, waves[k], rands[k])
    {
      // With one point, `i / (points - 1)` is 0/0 and JavaScript pushes NaN;
      // that slot is the last one and is overwritten after the loop.
      var value := if points == 1 then endValue
                   else MonthlyValue(startValue, endValue, points, i, waves[i], rands[i]);
      data := data + [value];
      i := i + 1;
    }
    if points >= 1 {
      data := data[points - 1 := endValue];
    }
  }

  /** The first value is the start value plus noise: progress and the sine term both vanish at 0. */
  lemma MonthlyFirstValue(startValue: int, endValue: int, points: int, rand: real)
    requires points >= 2
    ensures MonthlyValue(startValue, endValue, points, 0, 0.0, rand)
            == Round(startValue as real + (rand - 0.5) * (endValue as real * 0.03))
  {
  }

  function Abs(x: real): real { if x < 0.0 then -x else x }

  lemma BoundedProduct(w: real, bound: real, k: real)
    requires -bound <= w <= bound
    ensures -(bound * Abs(k)) <= w * k <= bound * Abs(k)
  {
    if k >= 0.0 {
      assert w * k <= bound * k;
      assert -bound * k <= w * k;
    } else {
      assert w * k <= -bound * k;
      assert bound * k <= w * k;
    }
  }

  // ---------------------------------------------------------------------
  // calculateSMA
  // ---------------------------------------------------------------------

  /** `reduce((acc, val) => acc + val, 0)`: the sum, accumulated from the left. */
  function Sum(s: seq<int>): int
  {
    if s == [] then 0 else Sum(s[..|s| - 1]) + s[|s| - 1]
  }

  /** `Math.round(sum / period)` written in integers. */
  function RoundedMean(sum: int, period: int): int
    requires period >= 1
  {
    (2 * sum + period) / (2 * period)
  }

  /** The integer form agrees with rounding the real quotient. */
  lemma RoundedMeanIsRound(sum: int, period: int)
    requires period >= 1
    ensures RoundedMean(sum, period) == Round(sum as real / period as real)
  {
    var p := 2 * period;
    var q, m := (2 * sum + period) / p, (2 * sum + period) % p;
    assert 2 * sum + period == q * p + m && 0 <= m < p;
    var x := sum as real / period as real;
    var d := x + 0.5 - q as real;
    assert x * period as real == sum as real;
    assert d * p as real == (2 * sum + period) as real - (q * p) as real;
    assert d * p as real == m as real;
    UnitFraction(d, p as real, m as real);
  }

  /**
   * Slot `i` of `calculateSMA(data, period)`. A positive period leaves the first
   * `period - 1` slots null and rounds the mean of the trailing window in the
   * others. A zero period divides an empty sum by zero in every slot; a
   * negative one slices an empty window and divides 0 by the period, giving 0.
   */
  function SmaAt(data: seq<int>, period: int, i: nat): (r: Smoothed)
    requires i < |data|
    ensures r == Null <==> period >= 1 && i < period - 1
    ensures r == NaN <==> period == 0
    ensures period >= 1 && i >= period - 1 ==>
              r.Mean? && r.value == Round(Sum(data[i - period + 1 .. i + 1]) as real / period as real)
  {
    if period == 0 then NaN
    else if period < 0 then Mean(0)
    else if i < period - 1 then Null
    else
      RoundedMeanIsRound(Sum(data[i - period + 1 .. i + 1]), period);
      Mean(RoundedMean(Sum(data[i - period + 1 .. i + 1]), period))
  }

  method CalculateSma(data: seq<int>, period: int) returns (sma: seq<Smoothed>)
    ensures |sma| == |data|
    ensures forall i :: 0 <= i < |data| ==> sma[i] == SmaAt(data, period, i)
    ensures period >= 1 ==> forall i :: 0 <= i < |data| ==> (sma[i] == Null <==> i < period - 1)
    ensures period > |data| ==> forall i :: 0 <= i < |data| ==> sma[i] == Null
  {
    var a := new Smoothed[|data|](_ => Null);
    var i := period - 1;
    while i < |data|
      invariant period - 1 <= i <= Max(|data|, period - 1)
      invariant forall k :: 0 <= k < |data| ==> a[k] == if k < i then SmaAt(data, period, k) else Null
    {
      var window := Slice(data, i - period + 1, i + 1);
      var sum := Sum(window);
      // A store at a negative index sets a non-index property and leaves the array alone.
      if 0 <= i {
        if period == 0 {
          a[i] := NaN;
        } else {
          a[i] := Mean(Round(sum as real / period as real));
          if period >= 1 {
            RoundedMeanIsRound(sum, period);
          }
        }
      }
      i := i + 1;
    }
    sma := a[..];
  }

  /** A worked case: a period-2 average over [10, 20, 30]. */
  lemma SmaExample()
    ensures [SmaAt([10, 20, 30], 2, 0), SmaAt([10, 20, 30], 2, 1), SmaAt([10, 20, 30], 2, 2)]
            == [Null, Mean(15), Mean(25)]
  {
    assert [10, 20, 30][0..2] == [10, 20];
    assert [10, 20, 30][1..3] == [20, 30];
    assert Sum([10, 20]) == 30 by { assert [10, 20][..1] == [10]; assert [10][..0] == []; }
    assert Sum([20, 30]) == 50 by { assert [20, 30][..1] == [20]; assert [20][..0] == []; }
  }

  /** The average is trailing: slot `i` depends on `data[..i + 1]` only. */
  lemma SmaTrailing(data: seq<int>, other: seq<int>, period: int, i: nat)
    requires i < |data| && i < |other|
    requires data[..i + 1] == other[..i + 1]
    ensures SmaAt(data, period, i) == SmaAt(other, period, i)
  {
    if period >= 1 && i >= period - 1 {
      assert data[i - period + 1 .. i + 1] == data[..i + 1][i - period + 1 ..];
      assert other[i - period + 1 .. i + 1] == other[..i + 1][i - period + 1 ..];
    }
  }

  lemma {:induction false} SumBounds(s: seq<int>, lo: int, hi: int)
    requires forall k :: 0 <= k < |s| ==> lo <= s[k] <= hi
    ensures lo * |s| <= Sum(s) <= hi * |s|
  {
    if s != [] {
      SumBounds(s[..|s| - 1], lo, hi);
    }
  }

  /** Each average lies between the smallest and the largest value of its window. */
  lemma SmaWithinWindow(data: seq<int>, period: int, i: nat, lo: int, hi: int)
    requires period >= 1 && period - 1 <= i < |data|
    requires forall k :: i - period + 1 <= k <= i ==> lo <= data[k] <= hi
    ensures SmaAt(data, period, i).Mean?
    ensures lo <= SmaAt(data, period, i).value <= hi
  {
    var w := data[i - period + 1 .. i + 1];
    assert forall k :: 0 <= k < |w| ==> w[k] == data[i - period + 1 + k];
    SumBounds(w, lo, hi);
    var s := Sum(w);
    MeanBetween(s, period, lo, hi);
    RoundBetween(lo, s as real / period as real, hi);
    RoundedMeanIsRound(s, period);
  }

  lemma MeanBetween(s: int, p: int, lo: int, hi: int)
    requires p >= 1 && lo * p <= s <= hi * p
    ensures lo as real <= s as real / p as real <= hi as real
  {
    var m := s as real / p as real;
    assert m * p as real == s as real;
    assert (lo * p) as real == lo as real * p as real;
    assert (hi * p) as real == hi as real * p as real;
  }
}
