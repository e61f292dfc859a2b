/**
 * Forecast series: the generator of a history-then-forecast band series,
 * the renaming of the 30- and 90-day horizons, and the rescaling of a
 * series by a factor, shared by the what-if simulation of the prediction
 * page and by the market refresh.
 *
 * `Math.random()` is not modelled: the generator receives the value of each
 * call, in call order, in `rands`.
 */
module Forecast {
  import opened Js

  /**
   * The `name` of a point: "N روز قبل" (N days before), "امروز" (today)
   * or "N روز بعد" (N days after).
   */
  datatype Label = DaysBefore(n: int) | Today | DaysAfter(n: int)

  /** A `PredictionDataPoint`; `actual` is the optional field of the same name. */
  datatype ForecastPoint = ForecastPoint(name: Label, low: int, mid: int, high: int, actual: Option<int>)

  /** `point.actual` is truthy: present and not 0. */
  predicate HasActual(p: ForecastPoint)
  {
    p.actual.Some? && p.actual.value != 0
  }

  predicate BandOrdered(p: ForecastPoint)
  {
    p.low <= p.mid <= p.high
  }

  // ---------------------------------------------------------------------
  // generateForecast
  // ---------------------------------------------------------------------

  /** `historyPoints`: a third of the points, rounded down, when there is a history. */
  function HistoryPoints(points: int, hasHistory: bool): int
  {
    if hasHistory then points / 3 else 0
  }

  /**
   * The point pushed by the history loop at index `i`, with `Math.random()` =
   * `rand`: named `historyPoints - i` days before today, carrying an `actual`
   * value onto which its band has collapsed.
   */
  function HistoryPoint(start: int, end: int, points: int, volatility: real, historyPoints: int, i: int, rand: real)
    : (r: ForecastPoint)
    requires points != 1
    ensures r.name == DaysBefore(historyPoints - i)
    ensures r.actual.Some? && r.low == r.mid == r.high == r.actual.value
    ensures BandOrdered(r) && Collapsed(r)
  {
    var progress := i as real / (points - 1) as real;
    var linearValue := start as real + (end - start) as real * progress;
    var noise := (rand - 0.5) * (start as real * (volatility / 2.0));
    var actual := Round(linearValue + noise);
    ForecastPoint(DaysBefore(historyPoints - i), actual, actual, actual, Some(actual))
  }

  function Progress(points: int, historyPoints: int, i: int): real
    requires points != 1
  {
    (i + historyPoints) as real / (points - 1) as real
  }

  /** The centre the forecast loop computes at index `i`, with `Math.random()` = `rand`. */
  function ForecastMid(start: int, end: int, points: int, volatility: real, historyPoints: int, i: int, rand: real): int
    requires points != 1
  {
    var progress := Progress(points, historyPoints, i);
    Round(start as real + (end - start) as real * progress + (rand - 0.5) * (start as real * volatility * progress))
  }

  /**
   * The point pushed by the forecast loop at index `i`: a band around the
   * centre, no `actual`, named "today" at index 0 and `i` days after today
   * beyond. A non-negative centre and volatility, at a non-negative
   * progress, give a non-negative band, so `low <= mid <= high`.
   */
  function ForecastAt(start: int, end: int, points: int, volatility: real, historyPoints: int, i: int, rand: real)
    : (r: ForecastPoint)
    requires points != 1
    ensures r.actual.None?
    ensures r.name == if i == 0 then Today else DaysAfter(i)
    ensures r.mid == ForecastMid(start, end, points, volatility, historyPoints, i, rand)
    ensures var bandSize := BandSize(r.mid, volatility, Progress(points, historyPoints, i));
            r.low == Round(r.mid as real - bandSize) && r.high == Round(r.mid as real + bandSize)
    ensures points >= 2 && i + historyPoints >= 0 && volatility >= 0.0 && r.mid >= 0 ==> BandOrdered(r)
  {
    var progress := Progress(points, historyPoints, i);
    var mid := ForecastMid(start, end, points, volatility, historyPoints, i, rand);
    var bandSize := BandSize(mid, volatility, progress);
    assert points >= 2 && i + historyPoints >= 0 ==> progress >= 0.0;
    BandAround(mid, bandSize);
    ForecastPoint(if i == 0 then Today else DaysAfter(i),
                  Round(mid as real - bandSize), mid, Round(mid as real + bandSize), None)
  }

  /**
   * `bandSize`: the half-width of the band, a share of the centre that grows
   * with the volatility and with the progress. It is not negative for a
   * non-negative centre, volatility and progress.
   */
  function BandSize(mid: int, volatility: real, progress: real): (r: real)
    ensures mid >= 0 && volatility >= 0.0 && progress >= 0.0 ==> r >= 0.0
  {
    var r := mid as real * volatility * (1.0 + progress) * 0.7;
    assert mid >= 0 && volatility >= 0.0 && progress >= 0.0 ==> r >= 0.0 by {
      if mid >= 0 && volatility >= 0.0 && progress >= 0.0 {
        NonNegativeProduct4(mid as real, volatility, 1.0 + progress, 0.7);
      }
    }
    r
  }

  /** The band widens as the forecast runs further ahead. */
  lemma BandWidens(mid: int, volatility: real, p1: real, p2: real)
    requires mid >= 0 && volatility >= 0.0 && p1 <= p2
    ensures BandSize(mid, volatility, p1) <= BandSize(mid, volatility, p2)
  {
    var k := mid as real * volatility;
    assert k >= 0.0;
    assert k * (1.0 + p1) <= k * (1.0 + p2);
    assert BandSize(mid, volatility, p1) == k * (1.0 + p1) * 0.7;
    assert BandSize(mid, volatility, p2) == k * (1.0 + p2) * 0.7;
  }

  /**
   * `generateForecast(start, end, points, volatility, hasHistory)`. With one
   * point the progress is `0 / 0`, which JavaScript turns into NaN; that case
   * is excluded.
   */
  method GenerateForecast(start: int, end: int, points: int, volatility: real, hasHistory: bool, rands: seq<real>)
    returns (data: seq<ForecastPoint>)
    requires points != 1
    requires |rands| >= points
    ensures var h := HistoryPoints(points, hasHistory);
            && |data| == Max(points, 0)
            && (forall i :: 0 <= i < h && i < |data| ==>
                  data[i] == HistoryPoint(start, end, points, volatility, h, i, rands[i]))
            && (forall i :: Max(h, 0) <= i < |data| ==>
                  data[i] == ForecastAt(start, end, points, volatility, h, i - h, rands[i]))
    ensures var h := HistoryPoints(points, hasHistory);
            && (forall i :: 0 <= i < h && i < |data| ==>
                  HasActual(data[i]) ==> data[i].low == data[i].mid == data[i].high == data[i].actual.value)
            && (forall i :: 0 <= i < h && i < |data| ==> data[i].name == DaysBefore(h - i))
            && (forall i :: Max(h, 0) <= i < |data| ==> data[i].actual.None?)
            && (forall i :: Max(h, 0) <= i < |data| ==> data[i].name == if i == h then Today else DaysAfter(i - h))
  {
    data := [];
    var historyPoints := if hasHistory then Floor3(points) else 0;
    var forecastPoints := points - historyPoints;
    var i := 0;
    while i < historyPoints
      invariant 0 <= i <= Max(historyPoints, 0)
      invariant |data| == i
      invariant forall k :: 0 <= k < i ==>
                  data[k] == HistoryPoint(start, end, points, volatility, historyPoints, k, rands[k])
    {
      data := data + [HistoryPoint(start, end, points, volatility, historyPoints, i, rands[i])];
      i := i + 1;
    }
    i := 0;
    while i < forecastPoints
      invariant 0 <= i <= Max(forecastPoints, 0)
      invariant |data| == Max(historyPoints, 0) + i
      invariant forall k :: 0 <= k < historyPoints && k < |data| ==>
                  data[k] == HistoryPoint(start, end, points, volatility, historyPoints, k, rands[k])
      invariant forall k :: Max(historyPoints, 0) <= k < |data| ==>
                  data[k] == ForecastAt(start, end, points, volatility, historyPoints, k - historyPoints, rands[k])
    {
      var r := rands[Max(historyPoints, 0) + i];
      data := data + [ForecastAt(start, end, points, volatility, historyPoints, i, r)];
      i := i + 1;
    }
  }

  /** `Math.floor(points / 3)`. */
  function Floor3(points: int): (r: int)
    ensures 3 * r <= points < 3 * r + 3
  {
    points / 3
  }

  /** The first history point is the start value plus noise: its progress is 0. */
  lemma FirstHistoryPoint(start: int, end: int, points: int, volatility: real, historyPoints: int, rand: real)
    requires points != 1
    ensures HistoryPoint(start, end, points, volatility, historyPoints, 0, rand).mid
            == Round(start as real + (rand - 0.5) * (start as real * (volatility / 2.0)))
  {
  }

  /** The forecast loop runs at least once whenever there are two points or more: history takes a third. */
  lemma ForecastNotEmpty(points: int, hasHistory: bool)
    requires points >= 2
    ensures 0 <= HistoryPoints(points, hasHistory) < points
  {
  }

  /**
   * The last forecast point has progress 1, so when its noise draw is 0.5 its
   * centre is the target value `end` exactly.
   */
  lemma LastMidIsEnd(start: int, end: int, points: int, volatility: real, hasHistory: bool)
    requires points >= 2
    ensures var h := HistoryPoints(points, hasHistory);
            ForecastMid(start, end, points, volatility, h, points - 1 - h, 0.5) == end
  {
    var h := HistoryPoints(points, hasHistory);
    var d := (points - 1) as real;
    assert (points - 1 - h + h) as real == d;
    SelfQuotient(d, Progress(points, h, points - 1 - h));
    RoundOfInteger(end);
  }

  lemma SelfQuotient(d: real, x: real)
    requires d > 0.0 && x == d / d
    ensures x == 1.0
  {
    assert x * d == d;
  }

  /** A band of non-negative width around an integer centre rounds to an ordered band. */
  lemma BandAround(mid: int, bandSize: real)
    ensures bandSize >= 0.0 ==> Round(mid as real - bandSize) <= mid <= Round(mid as real + bandSize)
  {
    if bandSize >= 0.0 {
      RoundMonotone(mid as real - bandSize, mid as real);
      RoundMonotone(mid as real, mid as real + bandSize);
      RoundOfInteger(mid);
    }
  }

  lemma NonNegativeProduct4(a: real, b: real, c: real, d: real)
    requires a >= 0.0 && b >= 0.0 && c >= 0.0 && d >= 0.0
    ensures a * b * c * d >= 0.0
  {
    assert a * b >= 0.0;
    assert a * b * c >= 0.0;
  }

  // ---------------------------------------------------------------------
  // Renaming for the 30- and 90-day horizons
  // ---------------------------------------------------------------------

  /** `.map((p, i) => ({...p, name: `${i * step} روز بعد`}))`. */
  function Relabel(forecast: seq<ForecastPoint>, step: int): (r: seq<ForecastPoint>)
    ensures |r| == |forecast|
    ensures forall i :: 0 <= i < |r| ==> r[i].name == DaysAfter(i * step)
    ensures forall i :: 0 <= i < |r| ==>
              r[i].low == forecast[i].low && r[i].mid == forecast[i].mid &&
              r[i].high == forecast[i].high && r[i].actual == forecast[i].actual
  {
    seq(|forecast|, i requires 0 <= i < |forecast| => forecast[i].(name := DaysAfter(i * step)))
  }

  // ---------------------------------------------------------------------
  // Rescaling
  // ---------------------------------------------------------------------

  /**
   * One point of the rescaling `map`: a point with a truthy `actual`
   * collapses onto it, any other has its three band values multiplied by
   * `factor` and rounded.
   */
  function RescalePoint(p: ForecastPoint, factor: real): (r: ForecastPoint)
    ensures r.name == p.name && r.actual == p.actual
    ensures Collapsed(r)
    ensures !HasActual(p) ==>
              && r.low == Round(p.low as real * factor)
              && r.mid == Round(p.mid as real * factor)
              && r.high == Round(p.high as real * factor)
  {
    if HasActual(p) then
      p.(low := p.actual.value, mid := p.actual.value, high := p.actual.value)
    else
      p.(low := Round(p.low as real * factor), mid := Round(p.mid as real * factor),
         high := Round(p.high as real * factor))
  }

  /** The rescaled series: the same length and names, one rescaled point per point. */
  function RescaleForecast(forecast: seq<ForecastPoint>, factor: real): (r: seq<ForecastPoint>)
    ensures |r| == |forecast|
    ensures forall i :: 0 <= i < |r| ==>
              r[i] == RescalePoint(forecast[i], factor) && r[i].name == forecast[i].name &&
              r[i].actual == forecast[i].actual
  {
    seq(|forecast|, i requires 0 <= i < |forecast| => RescalePoint(forecast[i], factor))
  }

  /** A history point is one whose band has collapsed onto its truthy `actual`. */
  predicate Collapsed(p: ForecastPoint)
  {
    HasActual(p) ==> p.low == p.mid == p.high == p.actual.value
  }

  /** A factor of exactly 1 leaves a series whose history is collapsed unchanged. */
  lemma RescaleByOne(forecast: seq<ForecastPoint>)
    requires forall i :: 0 <= i < |forecast| ==> Collapsed(forecast[i])
    ensures RescaleForecast(forecast, 1.0) == forecast
  {
    forall i | 0 <= i < |forecast|
      ensures RescalePoint(forecast[i], 1.0) == forecast[i]
    {
      var p := forecast[i];
      RoundOfInteger(p.low);
      RoundOfInteger(p.mid);
      RoundOfInteger(p.high);
    }
  }

  /** Rescaling by a non-negative factor keeps the band's order. */
  lemma RescaleKeepsOrder(p: ForecastPoint, factor: real)
    requires factor >= 0.0
    requires BandOrdered(p)
    ensures BandOrdered(RescalePoint(p, factor))
  {
    if !HasActual(p) {
      ScaleMonotone(p.low, p.mid, factor);
      ScaleMonotone(p.mid, p.high, factor);
    }
  }

  lemma ScaleMonotone(a: int, b: int, factor: real)
    requires a <= b && factor >= 0.0
    ensures Round(a as real * factor) <= Round(b as real * factor)
  {
    assert a as real * factor <= b as real * factor;
    RoundMonotone(a as real * factor, b as real * factor);
  }

  /** For non-negative band values a larger factor gives a band no lower. */
  lemma RescaleMonotoneInFactor(p: ForecastPoint, f1: real, f2: real)
    requires f1 <= f2
    requires p.low >= 0 && p.mid >= 0 && p.high >= 0
    ensures RescalePoint(p, f1).low <= RescalePoint(p, f2).low
    ensures RescalePoint(p, f1).mid <= RescalePoint(p, f2).mid
    ensures RescalePoint(p, f1).high <= RescalePoint(p, f2).high
  {
    if !HasActual(p) {
      FactorMonotone(p.low, f1, f2);
      FactorMonotone(p.mid, f1, f2);
      FactorMonotone(p.high, f1, f2);
    }
  }

  lemma FactorMonotone(v: int, f1: real, f2: real)
    requires v >= 0 && f1 <= f2
    ensures Round(v as real * f1) <= Round(v as real * f2)
  {
    assert v as real * f1 <= v as real * f2;
    RoundMonotone(v as real * f1, v as real * f2);
  }

  /** Renaming and rescaling touch different fields, so their order does not matter. */
  lemma RelabelRescaleCommute(forecast: seq<ForecastPoint>, step: int, factor: real)
    ensures RescaleForecast(Relabel(forecast, step), factor) == Relabel(RescaleForecast(forecast, factor), step)
  {
    var a := RescaleForecast(Relabel(forecast, step), factor);
    var b := Relabel(RescaleForecast(forecast, factor), step);
    forall i | 0 <= i < |forecast|
      ensures a[i] == b[i]
    {
      assert Relabel(forecast, step)[i] == forecast[i].(name := DaysAfter(i * step));
      assert RescaleForecast(forecast, factor)[i] == RescalePoint(forecast[i], factor);
    }
  }

  // ---------------------------------------------------------------------
  // Prediction tables
  // ---------------------------------------------------------------------

  /** A `PredictionResult`, without its descriptive texts. */
  datatype PredictionResult = PredictionResult(accuracy: int, forecast: seq<ForecastPoint>)

  /**
   * A product's entry of `PredictionData`: its key and its horizons. The
   * horizon keys ("7", "30", "90") are integer-like, so JavaScript enumerates
   * them in ascending order whatever order they were written in.
   */
  datatype ProductPredictions = ProductPredictions(key: string, horizons: map<nat, PredictionResult>)
}
