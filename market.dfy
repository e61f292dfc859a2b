/**
 * The simulated market refresh: every product's price moves by a random
 * fraction within 1.5%, its chart slides by one point, its price table and
 * technical figures follow; every commodity moves within 2% of its last
 * chart point; and every product whose price moved has all of its
 * forecasts rescaled by the same relative change.
 *
 * `Math.random()` is not modelled: each product and each commodity receives
 * the values of its calls, in call order, as a record of draws. The network
 * delay before the refresh is not modelled.
 */
module Market {
  import opened Js
  import opened Forecast

  /** The technical panel of a product or commodity. */
  datatype TechnicalInfo = TechnicalInfo(signal: string, rsi: real, support: int, resistance: int, summary: string)

  /** One row of a product's price table; only `price` changes. */
  datatype PriceRow = PriceRow(spec: string, dimension: string, price: int)

  /** The fields of a product the refresh reads or writes. */
  datatype Product = Product(
    price: int, change: real, weeklyChange: real, monthlyChange: real,
    chartData: seq<int>, technicalInfo: TechnicalInfo, detailedPrices: seq<PriceRow>)

  datatype Commodity = Commodity(chartData: seq<int>, technicalInfo: TechnicalInfo)

  /** An entry of a string-keyed record, in enumeration order. */
  datatype Keyed<T> = Keyed(key: string, value: T)

  /** The six `Math.random()` values one product uses, in call order. */
  datatype ProductDraws = ProductDraws(price: real, weekly: real, monthly: real, support: real, resistance: real, rsi: real)

  /** The four `Math.random()` values one commodity uses, in call order. */
  datatype CommodityDraws = CommodityDraws(price: real, support: real, resistance: real, rsi: real)

  predicate IsDraw(r: real)
  {
    0.0 <= r <= 1.0
  }

  // ---------------------------------------------------------------------
  // Helpers
  // ---------------------------------------------------------------------

  /**
   * `fluctuate(value, percent)`: a draw in [0, 1] keeps a non-negative value
   * within `percent`% of itself, and a draw of exactly one half leaves it
   * where it was.
   */
  function Fluctuate(value: real, percent: real, rand: real): (r: real)
    ensures rand == 0.5 ==> r == value
    ensures value >= 0.0 && percent >= 0.0 && IsDraw(rand) ==>
              value * (1.0 - percent / 100.0) <= r <= value * (1.0 + percent / 100.0)
  {
    MovedWithin(value, percent, rand);
    value * (1.0 + (rand - 0.5) * 2.0 * (percent / 100.0))
  }

  /** A draw in [0, 1] moves a non-negative value by at most `percent`%. */
  lemma MovedWithin(value: real, percent: real, rand: real)
    ensures value >= 0.0 && percent >= 0.0 && IsDraw(rand) ==>
              value * (1.0 - percent / 100.0)
              <= value * (1.0 + (rand - 0.5) * 2.0 * (percent / 100.0))
              <= value * (1.0 + percent / 100.0)
  {
    if value >= 0.0 && percent >= 0.0 && IsDraw(rand) {
      var q, w := percent / 100.0, (rand - 0.5) * 2.0;
      Scaled(w, q);
      assert (rand - 0.5) * 2.0 * (percent / 100.0) == w * q;
      assert value * (1.0 - q) <= value * (1.0 + w * q);
      assert value * (1.0 + w * q) <= value * (1.0 + q);
    }
  }

  lemma Scaled(w: real, q: real)
    requires -1.0 <= w <= 1.0 && q >= 0.0
    ensures -q <= w * q <= q
  {
  }

  /** `updateChartData(oldData, newPrice)`: drop the oldest point and append the rounded new price. */
  function UpdateChartData(oldData: seq<int>, newPrice: real): (r: seq<int>)
    ensures |oldData| >= 1 ==> |r| == |oldData|
    ensures oldData == [] ==> r == [Round(newPrice)]
    ensures |r| >= 1 && r[|r| - 1] == Round(newPrice)
    ensures forall k :: 0 <= k < |r| - 1 ==> r[k] == oldData[k + 1]
  {
    Slice(oldData, 1, |oldData|) + [Round(newPrice)]
  }

  function RoundAll(prices: seq<real>): (r: seq<int>)
    ensures |r| == |prices|
    ensures forall k :: 0 <= k < |r| ==> r[k] == Round(prices[k])
  {
    seq(|prices|, k requires 0 <= k < |prices| => Round(prices[k]))
  }

  /** `updateChartData` applied once per price, oldest price first. */
  function UpdateMany(chart: seq<int>, prices: seq<real>): seq<int>
    decreases |prices|
  {
    if prices == [] then chart else UpdateMany(UpdateChartData(chart, prices[0]), prices[1..])
  }

  /**
   * The chart is a window of fixed length sliding over the price history:
   * after any number of updates it holds the last `|chart|` points of the earlier
   * chart followed by the new prices.
   */
  lemma {:induction false} SlidingWindow(chart: seq<int>, prices: seq<real>)
    requires |chart| >= 1
    ensures UpdateMany(chart, prices) == (chart + RoundAll(prices))[|prices|..]
    decreases |prices|
  {
    if prices != [] {
      var next := UpdateChartData(chart, prices[0]);
      assert next == chart[1..] + [Round(prices[0])];
      SlidingWindow(next, prices[1..]);
      assert RoundAll(prices) == [Round(prices[0])] + RoundAll(prices[1..]);
      assert (next + RoundAll(prices[1..]))[|prices| - 1..] == (chart + RoundAll(prices))[|prices|..];
    }
  }

  function RealMax(a: real, b: real): real { if a >= b then a else b }
  function RealMin(a: real, b: real): real { if a <= b then a else b }

  /** `Math.max(15, Math.min(85, rsi))`. */
  function ClampRsi(rsi: real): (r: real)
    ensures 15.0 <= r <= 85.0
    ensures 15.0 <= rsi <= 85.0 ==> r == rsi
    ensures rsi < 15.0 ==> r == 15.0
    ensures rsi > 85.0 ==> r == 85.0
  {
    RealMax(15.0, RealMin(85.0, rsi))
  }

  /** The `detailedPrices` rows, each price scaled by `1 + changePercent` and rounded. */
  function ScaleRows(rows: seq<PriceRow>, changePercent: real): (r: seq<PriceRow>)
    ensures |r| == |rows|
    ensures forall j :: 0 <= j < |r| ==>
              r[j].spec == rows[j].spec && r[j].dimension == rows[j].dimension &&
              r[j].price == Round(rows[j].price as real * (1.0 + changePercent))
  {
    seq(|rows|, j requires 0 <= j < |rows| => ScaleRow(rows[j], changePercent))
  }

  function ScaleRow(row: PriceRow, changePercent: real): PriceRow
  {
    row.(price := Round(row.price as real * (1.0 + changePercent)))
  }

  // ---------------------------------------------------------------------
  // One product, one commodity
  // ---------------------------------------------------------------------

  /** The unrounded new price of a product. */
  function NewPrice(p: Product, d: ProductDraws): real
  {
    Fluctuate(p.price as real, 1.5, d.price)
  }

  /** `changePercent`: the relative change of the price, as a fraction. A zero price is excluded (0 / 0). */
  function ChangePercent(p: Product, d: ProductDraws): real
    requires p.price != 0
  {
    (NewPrice(p, d) - p.price as real) / p.price as real
  }

  /**
   * The body of the products loop, applied to one product. The stored
   * `change` is the percentage that takes the old price to the new one, and
   * every price-table row is scaled by that same factor; the newest chart
   * point is the new price; the RSI lands in [15, 85]; the signal, the
   * summary and the rows' labels are kept. A positive price stays positive
   * and, for a draw in [0, 1], moves by at most 1.5%, plus half a unit of
   * rounding.
   */
  function RefreshProduct(p: Product, d: ProductDraws): (r: Product)
    requires p.price != 0
    ensures r.price == Round(p.price as real * (1.0 + r.change / 100.0))
    ensures |r.detailedPrices| == |p.detailedPrices|
    ensures forall j :: 0 <= j < |r.detailedPrices| ==>
              && r.detailedPrices[j].spec == p.detailedPrices[j].spec
              && r.detailedPrices[j].dimension == p.detailedPrices[j].dimension
              && r.detailedPrices[j].price == Round(p.detailedPrices[j].price as real * (1.0 + r.change / 100.0))
    ensures |p.chartData| >= 1 ==> |r.chartData| == |p.chartData|
    ensures |r.chartData| >= 1 && r.chartData[|r.chartData| - 1] == r.price
    ensures 15.0 <= r.technicalInfo.rsi <= 85.0
    ensures r.technicalInfo.signal == p.technicalInfo.signal && r.technicalInfo.summary == p.technicalInfo.summary
    ensures p.price >= 1 && IsDraw(d.price) ==>
              r.price >= 1 && p.price as real * 0.985 - 0.5 <= r.price as real <= p.price as real * 1.015 + 0.5
  {
    var newPrice := NewPrice(p, d);
    var changePercent := ChangePercent(p, d);
    ChangePercentRestoresPrice(p, d);
    assert changePercent * 100.0 / 100.0 == changePercent;
    assert p.price >= 1 && IsDraw(d.price) ==> Round(newPrice) >= 1 by {
      if p.price >= 1 && IsDraw(d.price) {
        RoundMonotone(0.985, newPrice);
        assert Round(0.985) == 1;
      }
    }
    var t := p.technicalInfo;
    Product(
      Round(newPrice),
      changePercent * 100.0,
      Fluctuate(p.weeklyChange, 5.0, d.weekly),
      Fluctuate(p.monthlyChange, 10.0, d.monthly),
      UpdateChartData(p.chartData, newPrice),
      t.(support := Round(Fluctuate(t.support as real, 1.0, d.support)),
         resistance := Round(Fluctuate(t.resistance as real, 1.0, d.resistance)),
         rsi := ClampRsi(Fluctuate(t.rsi, 5.0, d.rsi))),
      ScaleRows(p.detailedPrices, changePercent))
  }

  /** The price moves by exactly `changePercent`: `before * (1 + changePercent)` is the new price. */
  lemma ChangePercentRestoresPrice(p: Product, d: ProductDraws)
    requires p.price != 0
    ensures p.price as real * (1.0 + ChangePercent(p, d)) == NewPrice(p, d)
  {
    var before, cp := p.price as real, ChangePercent(p, d);
    assert cp * before == NewPrice(p, d) - before;
  }

  /**
   * The body of the commodities loop: the new point is drawn around the last
   * chart point. The chart slides by one point and keeps its length; for a
   * draw in [0, 1] the new point lies within 2%, plus half a unit of
   * rounding, of the previous last point; the RSI lands in [15, 85]; the
   * signal and the summary are kept.
   */
  function RefreshCommodity(c: Commodity, d: CommodityDraws): (r: Commodity)
    requires |c.chartData| >= 1
    ensures |r.chartData| == |c.chartData|
    ensures forall k :: 0 <= k < |r.chartData| - 1 ==> r.chartData[k] == c.chartData[k + 1]
    ensures var last := c.chartData[|c.chartData| - 1] as real;
            last >= 0.0 && IsDraw(d.price) ==>
              last * 0.98 - 0.5 <= r.chartData[|r.chartData| - 1] as real <= last * 1.02 + 0.5
    ensures 15.0 <= r.technicalInfo.rsi <= 85.0
    ensures r.technicalInfo.signal == c.technicalInfo.signal && r.technicalInfo.summary == c.technicalInfo.summary
  {
    var newPrice := Fluctuate(c.chartData[|c.chartData| - 1] as real, 2.0, d.price);
    var t := c.technicalInfo;
    Commodity(
      UpdateChartData(c.chartData, newPrice),
      t.(support := Round(Fluctuate(t.support as real, 1.5, d.support)),
         resistance := Round(Fluctuate(t.resistance as real, 1.5, d.resistance)),
         rsi := ClampRsi(Fluctuate(t.rsi, 8.0, d.rsi))))
  }

  // ---------------------------------------------------------------------
  // Predictions
  // ---------------------------------------------------------------------

  /** `basePriceChanges` after the products loop has seen `ps`: each key mapped to its product's change. */
  function BaseChanges(ps: seq<Keyed<Product>>, draws: seq<ProductDraws>): (r: map<string, real>)
    requires |draws| >= |ps|
    requires forall i :: 0 <= i < |ps| ==> ps[i].value.price != 0
    ensures forall key :: key in r <==> exists i :: 0 <= i < |ps| && ps[i].key == key
  {
    if ps == [] then map[]
    else
      var n := |ps| - 1;
      var prev := BaseChanges(ps[..n], draws);
      assert forall key :: key in prev ==> exists i :: 0 <= i < |ps| && ps[i].key == key by {
        forall key | key in prev
          ensures exists i :: 0 <= i < |ps| && ps[i].key == key
        {
          var i :| 0 <= i < n && ps[..n][i].key == key;
          assert ps[i].key == key;
        }
      }
      assert forall i :: 0 <= i < n ==> ps[i].key in prev by {
        forall i | 0 <= i < n
          ensures ps[i].key in prev
        {
          assert ps[..n][i].key == ps[i].key;
        }
      }
      prev[ps[n].key := ChangePercent(ps[n].value, draws[n])]
  }

  predicate DistinctKeys<T>(ps: seq<Keyed<T>>)
  {
    forall i, j :: 0 <= i < j < |ps| ==> ps[i].key != ps[j].key
  }

  /** With distinct keys, each product's entry is its own change. */
  lemma {:induction false} BaseChangesLookup(ps: seq<Keyed<Product>>, draws: seq<ProductDraws>, i: int)
    requires |draws| >= |ps|
    requires forall k :: 0 <= k < |ps| ==> ps[k].value.price != 0
    requires DistinctKeys(ps) && 0 <= i < |ps|
    ensures BaseChanges(ps, draws)[ps[i].key] == ChangePercent(ps[i].value, draws[i])
    decreases |ps|
  {
    var n := |ps| - 1;
    if i < n {
      BaseChangesLookup(ps[..n], draws, i);
    }
  }

  /** Every forecast of every horizon rescaled by `factor`. */
  function RescaleHorizons(horizons: map<nat, PredictionResult>, factor: real): (r: map<nat, PredictionResult>)
    ensures r.Keys == horizons.Keys
    ensures forall h :: h in r ==>
              r[h] == horizons[h].(forecast := RescaleForecast(horizons[h].forecast, factor))
  {
    map h | h in horizons :: horizons[h].(forecast := RescaleForecast(horizons[h].forecast, factor))
  }

  /** One product of the predictions loop: rescaled by `1 + change` only when its change is truthy. */
  function RescaleEntry(e: ProductPredictions, changes: map<string, real>): (r: ProductPredictions)
    ensures r.key == e.key && r.horizons.Keys == e.horizons.Keys
    ensures e.key !in changes || changes[e.key] == 0.0 ==> r == e
  {
    if e.key in changes && changes[e.key] != 0.0 then
      e.(horizons := RescaleHorizons(e.horizons, 1.0 + changes[e.key]))
    else e
  }

  // ---------------------------------------------------------------------
  // fetchUpdatedMarketData
  // ---------------------------------------------------------------------

  /**
   * Refreshes copies of the three tables: each product in enumeration order
   * (recording its relative change), then each commodity, then each product's
   * predictions. A zero price and an empty commodity chart are excluded (the
   * first divides by zero, the second reads past the end).
   */
  method FetchUpdatedMarketData(
    currentProducts: seq<Keyed<Product>>, currentGlobal: seq<Keyed<Commodity>>,
    currentPredictions: seq<ProductPredictions>,
    productDraws: seq<ProductDraws>, commodityDraws: seq<CommodityDraws>)
    returns (products: seq<Keyed<Product>>, global: seq<Keyed<Commodity>>, predictions: seq<ProductPredictions>)
    requires |productDraws| >= |currentProducts| && |commodityDraws| >= |currentGlobal|
    requires forall i :: 0 <= i < |currentProducts| ==> currentProducts[i].value.price != 0
    requires forall i :: 0 <= i < |currentGlobal| ==> |currentGlobal[i].value.chartData| >= 1
    ensures |products| == |currentProducts|
    ensures forall i :: 0 <= i < |products| ==>
              products[i] == Keyed(currentProducts[i].key, RefreshProduct(currentProducts[i].value, productDraws[i]))
    ensures |global| == |currentGlobal|
    ensures forall i :: 0 <= i < |global| ==>
              global[i] == Keyed(currentGlobal[i].key, RefreshCommodity(currentGlobal[i].value, commodityDraws[i]))
    ensures |predictions| == |currentPredictions|
    ensures forall i :: 0 <= i < |predictions| ==>
              predictions[i] == RescaleEntry(currentPredictions[i], BaseChanges(currentProducts, productDraws))
  {
    var basePriceChanges;
    products, basePriceChanges := UpdateProducts(currentProducts, productDraws);
    global := UpdateCommodities(currentGlobal, commodityDraws);
    predictions := UpdatePredictions(currentPredictions, basePriceChanges);
  }

  /** The products loop: refreshes each product of the copy and records its relative change. */
  method UpdateProducts(currentProducts: seq<Keyed<Product>>, productDraws: seq<ProductDraws>)
    returns (products: seq<Keyed<Product>>, basePriceChanges: map<string, real>)
    requires |productDraws| >= |currentProducts|
    requires forall i :: 0 <= i < |currentProducts| ==> currentProducts[i].value.price != 0
    ensures |products| == |currentProducts|
    ensures forall i :: 0 <= i < |products| ==>
              products[i] == Keyed(currentProducts[i].key, RefreshProduct(currentProducts[i].value, productDraws[i]))
    ensures basePriceChanges == BaseChanges(currentProducts, productDraws)
  {
    products := currentProducts;
    basePriceChanges := map[];
    var i := 0;
    while i < |products|
      invariant 0 <= i <= |products| == |currentProducts|
      invariant forall k :: 0 <= k < i ==>
                  products[k] == Keyed(currentProducts[k].key, RefreshProduct(currentProducts[k].value, productDraws[k]))
      invariant forall k :: i <= k < |products| ==> products[k] == currentProducts[k]
      invariant basePriceChanges == BaseChanges(currentProducts[..i], productDraws)
    {
      var product, changePercent := RefreshOne(products[i].value, productDraws[i]);
      BaseChangesStep(currentProducts, productDraws, i);
      basePriceChanges := basePriceChanges[products[i].key := changePercent];
      products := products[i := Keyed(products[i].key, product)];
      i := i + 1;
    }
    assert currentProducts[..i] == currentProducts;
  }

  /** The body of the products loop: the field assignments on one product. */
  method RefreshOne(current: Product, d: ProductDraws) returns (product: Product, changePercent: real)
    requires current.price != 0
    ensures product == RefreshProduct(current, d)
    ensures changePercent == ChangePercent(current, d)
  {
    product := current;
    var oldPrice := product.price as real;
    var newPrice := Fluctuate(oldPrice, 1.5, d.price);
    changePercent := (newPrice - oldPrice) / oldPrice;
    assert newPrice == NewPrice(current, d) && changePercent == ChangePercent(current, d);
    product := product.(price := Round(newPrice));
    product := product.(change := changePercent * 100.0);
    product := product.(weeklyChange := Fluctuate(product.weeklyChange, 5.0, d.weekly));
    product := product.(monthlyChange := Fluctuate(product.monthlyChange, 10.0, d.monthly));
    product := product.(chartData := UpdateChartData(product.chartData, newPrice));
    product := product.(detailedPrices := ScaleRows(product.detailedPrices, changePercent));
    var t := product.technicalInfo;
    t := t.(support := Round(Fluctuate(t.support as real, 1.0, d.support)));
    t := t.(resistance := Round(Fluctuate(t.resistance as real, 1.0, d.resistance)));
    t := t.(rsi := ClampRsi(Fluctuate(t.rsi, 5.0, d.rsi)));
    product := product.(technicalInfo := t);
  }

  lemma BaseChangesStep(ps: seq<Keyed<Product>>, draws: seq<ProductDraws>, i: int)
    requires |draws| >= |ps| && 0 <= i < |ps|
    requires forall k :: 0 <= k < |ps| ==> ps[k].value.price != 0
    ensures BaseChanges(ps[..i + 1], draws)
            == BaseChanges(ps[..i], draws)[ps[i].key := ChangePercent(ps[i].value, draws[i])]
  {
    assert ps[..i + 1][..i] == ps[..i];
  }

  /** The commodities loop: refreshes each commodity of the copy from its last chart point. */
  method UpdateCommodities(currentGlobal: seq<Keyed<Commodity>>, commodityDraws: seq<CommodityDraws>)
    returns (global: seq<Keyed<Commodity>>)
    requires |commodityDraws| >= |currentGlobal|
    requires forall i :: 0 <= i < |currentGlobal| ==> |currentGlobal[i].value.chartData| >= 1
    ensures |global| == |currentGlobal|
    ensures forall i :: 0 <= i < |global| ==>
              global[i] == Keyed(currentGlobal[i].key, RefreshCommodity(currentGlobal[i].value, commodityDraws[i]))
  {
    global := currentGlobal;
    var i := 0;
    while i < |global|
      invariant 0 <= i <= |global| == |currentGlobal|
      invariant forall k :: 0 <= k < i ==>
                  global[k] == Keyed(currentGlobal[k].key, RefreshCommodity(currentGlobal[k].value, commodityDraws[k]))
      invariant forall k :: i <= k < |global| ==> global[k] == currentGlobal[k]
    {
      var commodity := global[i].value;
      var d := commodityDraws[i];
      var newPrice := Fluctuate(commodity.chartData[|commodity.chartData| - 1] as real, 2.0, d.price);
      commodity := commodity.(chartData := UpdateChartData(commodity.chartData, newPrice));
      var t := commodity.technicalInfo;
      t := t.(support := Round(Fluctuate(t.support as real, 1.5, d.support)));
      t := t.(resistance := Round(Fluctuate(t.resistance as real, 1.5, d.resistance)));
      t := t.(rsi := ClampRsi(Fluctuate(t.rsi, 8.0, d.rsi)));
      commodity := commodity.(technicalInfo := t);
      global := global[i := Keyed(global[i].key, commodity)];
      i := i + 1;
    }
  }

  /** The predictions loop: rescales every horizon of each product whose recorded change is truthy. */
  method UpdatePredictions(currentPredictions: seq<ProductPredictions>, basePriceChanges: map<string, real>)
    returns (predictions: seq<ProductPredictions>)
    ensures |predictions| == |currentPredictions|
    ensures forall i :: 0 <= i < |predictions| ==>
              predictions[i] == RescaleEntry(currentPredictions[i], basePriceChanges)
  {
    predictions := currentPredictions;
    var i := 0;
    while i < |predictions|
      invariant 0 <= i <= |predictions| == |currentPredictions|
      invariant forall k :: 0 <= k < i ==> predictions[k] == RescaleEntry(currentPredictions[k], basePriceChanges)
      invariant forall k :: i <= k < |predictions| ==> predictions[k] == currentPredictions[k]
    {
      var key := predictions[i].key;
      if key in basePriceChanges && basePriceChanges[key] != 0.0 {
        var changeFactor := 1.0 + basePriceChanges[key];
        predictions := predictions[i := predictions[i].(horizons := RescaleHorizons(predictions[i].horizons, changeFactor))];
      }
      i := i + 1;
    }
  }

  /** A product's predictions are rescaled by its own relative change, when that is not zero. */
  lemma PredictionsFollowProduct(ps: seq<Keyed<Product>>, draws: seq<ProductDraws>, e: ProductPredictions, i: int)
    requires |draws| >= |ps|
    requires forall k :: 0 <= k < |ps| ==> ps[k].value.price != 0
    requires DistinctKeys(ps) && 0 <= i < |ps| && ps[i].key == e.key
    requires ChangePercent(ps[i].value, draws[i]) != 0.0
    ensures RescaleEntry(e, BaseChanges(ps, draws))
            == e.(horizons := RescaleHorizons(e.horizons, 1.0 + ChangePercent(ps[i].value, draws[i])))
  {
    BaseChangesLookup(ps, draws, i);
  }

  /** A product whose draw leaves its price where it was (a draw of one half) keeps its forecasts. */
  lemma UnmovedProductKeepsPredictions(ps: seq<Keyed<Product>>, draws: seq<ProductDraws>, e: ProductPredictions, i: int)
    requires |draws| >= |ps|
    requires forall k :: 0 <= k < |ps| ==> ps[k].value.price != 0
    requires DistinctKeys(ps) && 0 <= i < |ps| && ps[i].key == e.key
    requires draws[i].price == 0.5
    ensures RescaleEntry(e, BaseChanges(ps, draws)) == e
  {
    BaseChangesLookup(ps, draws, i);
    HalfDrawNoChange(ps[i].value, draws[i]);
  }

  lemma HalfDrawNoChange(p: Product, d: ProductDraws)
    requires p.price != 0 && d.price == 0.5
    ensures ChangePercent(p, d) == 0.0
  {
  }

  /** A prediction entry with no product of the same key keeps its forecasts. */
  lemma UnknownProductKeepsPredictions(ps: seq<Keyed<Product>>, draws: seq<ProductDraws>, e: ProductPredictions)
    requires |draws| >= |ps|
    requires forall k :: 0 <= k < |ps| ==> ps[k].value.price != 0
    requires forall k :: 0 <= k < |ps| ==> ps[k].key != e.key
    ensures RescaleEntry(e, BaseChanges(ps, draws)) == e
  {
  }
}
