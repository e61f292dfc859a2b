/**
 * The what-if simulation of the prediction page: four market inputs, each
 * compared with its initial value, weighted, scaled by the algorithm's
 * modifier and turned into one factor by which the base forecast is
 * rescaled; the handlers that change one input or one weight; and the
 * lookup of the displayed prediction with its fallback.
 */
module Prediction {
  import opened Js
  import opened Forecast

  datatype VarId = Dollar | Oil | IronOre | CokingCoal

  /** A `WhatIfVariable`: the slider of one input. */
  datatype WhatIfVariable = WhatIfVariable(
    id: VarId, name: string, value: real, min: real, max: real, step: real, unit: string)

  /** A `WhatIfData` record, one slider per input. */
  datatype WhatIfData = WhatIfData(
    dollar: WhatIfVariable, oil: WhatIfVariable, ironOre: WhatIfVariable, cokingCoal: WhatIfVariable)

  /** `whatIfInitialData`: the values every change is measured against. */
  const InitialWhatIf := WhatIfData(
    WhatIfVariable(Dollar, "نرخ دلار", 61850.0, 55000.0, 70000.0, 50.0, "تومان"),
    WhatIfVariable(Oil, "نفت خام برنت", 85.0, 70.0, 110.0, 0.5, "دلار"),
    WhatIfVariable(IronOre, "سنگ آهن", 122.0, 100.0, 150.0, 1.0, "دلار"),
    WhatIfVariable(CokingCoal, "زغال سنگ کک شو", 253.0, 200.0, 350.0, 1.0, "دلار"))

  function Get(d: WhatIfData, id: VarId): WhatIfVariable
  {
    match id
    case Dollar => d.dollar
    case Oil => d.oil
    case IronOre => d.ironOre
    case CokingCoal => d.cokingCoal
  }

  /** The model weights of the four inputs. */
  datatype Weights = Weights(dollar: real, oil: real, ironOre: real, cokingCoal: real)

  const DefaultWeights := Weights(0.40, 0.10, 0.35, 0.15)

  function Weight(w: Weights, id: VarId): real
  {
    match id
    case Dollar => w.dollar
    case Oil => w.oil
    case IronOre => w.ironOre
    case CokingCoal => w.cokingCoal
  }

  datatype Algorithm = Hybrid | Lstm | Linear

  /**
   * `algoModifier`: 1 for hybrid, more volatile for LSTM, more conservative
   * for linear; never more than 5% away from 1.
   */
  function AlgoModifier(algorithm: Algorithm): (r: real)
    ensures 0.95 <= r <= 1.05
    ensures r == 1.0 <==> algorithm == Hybrid
    ensures r > 1.0 <==> algorithm == Lstm
  {
    match algorithm
    case Hybrid => 1.0
    case Lstm => 1.05
    case Linear => 0.95
  }

  /**
   * `(input - initial) / initial` for one input: zero exactly at the initial
   * value and positive exactly above it.
   */
  function RelativeChange(inputs: WhatIfData, id: VarId): (r: real)
    ensures r == 0.0 <==> Get(inputs, id).value == Get(InitialWhatIf, id).value
    ensures r > 0.0 <==> Get(inputs, id).value > Get(InitialWhatIf, id).value
  {
    var initial := Get(InitialWhatIf, id).value;
    assert initial > 0.0;
    (Get(inputs, id).value - initial) / initial
  }

  /** The relative change is the fraction that takes the initial value to the input. */
  lemma RelativeChangeRestoresInput(inputs: WhatIfData, id: VarId)
    ensures Get(InitialWhatIf, id).value * (1.0 + RelativeChange(inputs, id)) == Get(inputs, id).value
  {
    var initial, r := Get(InitialWhatIf, id).value, RelativeChange(inputs, id);
    assert r * initial == Get(inputs, id).value - initial;
  }

  /**
   * `baseImpact`: the weighted sum of the four relative changes. It is zero
   * when no input has moved, and not negative when no input has fallen and
   * no weight is negative.
   */
  function BaseImpact(inputs: WhatIfData, w: Weights): (r: real)
    ensures Unmoved(inputs) ==> r == 0.0
    ensures NoneFallen(inputs) && NonNegative(w) ==> r >= 0.0
  {
    var d, o, i, c := RelativeChange(inputs, Dollar), RelativeChange(inputs, Oil),
                      RelativeChange(inputs, IronOre), RelativeChange(inputs, CokingCoal);
    assert NoneFallen(inputs) && NonNegative(w) ==>
             d * w.dollar >= 0.0 && o * w.oil >= 0.0 && i * w.ironOre >= 0.0 && c * w.cokingCoal >= 0.0;
    d * w.dollar + o * w.oil + i * w.ironOre + c * w.cokingCoal
  }

  /** Every input is at its initial value. */
  predicate Unmoved(inputs: WhatIfData)
  {
    && inputs.dollar.value == InitialWhatIf.dollar.value
    && inputs.oil.value == InitialWhatIf.oil.value
    && inputs.ironOre.value == InitialWhatIf.ironOre.value
    && inputs.cokingCoal.value == InitialWhatIf.cokingCoal.value
  }

  /** No input is below its initial value. */
  predicate NoneFallen(inputs: WhatIfData)
  {
    && inputs.dollar.value >= InitialWhatIf.dollar.value
    && inputs.oil.value >= InitialWhatIf.oil.value
    && inputs.ironOre.value >= InitialWhatIf.ironOre.value
    && inputs.cokingCoal.value >= InitialWhatIf.cokingCoal.value
  }

  predicate NonNegative(w: Weights)
  {
    w.dollar >= 0.0 && w.oil >= 0.0 && w.ironOre >= 0.0 && w.cokingCoal >= 0.0
  }

  /** `totalImpactFactor`: above 1 exactly when the impact is positive, below 1 exactly when it is negative. */
  function TotalImpactFactor(inputs: WhatIfData, w: Weights, algorithm: Algorithm): (r: real)
    ensures r == 1.0 <==> BaseImpact(inputs, w) == 0.0
    ensures r > 1.0 <==> BaseImpact(inputs, w) > 0.0
    ensures r < 1.0 <==> BaseImpact(inputs, w) < 0.0
  {
    var b, m := BaseImpact(inputs, w), AlgoModifier(algorithm);
    assert b > 0.0 ==> b * m > 0.0;
    assert b < 0.0 ==> b * m < 0.0;
    1.0 + b * m
  }

  /**
   * The initial weights add up to one, so when every input has moved by the
   * same fraction the impact is that fraction.
   */
  lemma DefaultWeightsAverage(inputs: WhatIfData, x: real)
    requires forall id :: RelativeChange(inputs, id) == x
    ensures BaseImpact(inputs, DefaultWeights) == x
  {
    assert RelativeChange(inputs, Dollar) == x && RelativeChange(inputs, Oil) == x;
    assert RelativeChange(inputs, IronOre) == x && RelativeChange(inputs, CokingCoal) == x;
  }

  /** The simulation effect: the base forecast rescaled by the total impact factor. */
  function SimulateForecast(base: seq<ForecastPoint>, inputs: WhatIfData, w: Weights, algorithm: Algorithm)
    : (r: seq<ForecastPoint>)
    ensures |r| == |base|
    ensures forall i :: 0 <= i < |r| ==> r[i].name == base[i].name
    ensures forall i :: 0 <= i < |r| && HasActual(base[i]) ==>
              r[i].low == r[i].mid == r[i].high == base[i].actual.value
  {
    RescaleForecast(base, TotalImpactFactor(inputs, w, algorithm))
  }

  /** Inputs at their initial values give a factor of exactly 1, whatever the weights and algorithm. */
  lemma BaselineFactorIsOne(inputs: WhatIfData, w: Weights, algorithm: Algorithm)
    requires forall id :: Get(inputs, id).value == Get(InitialWhatIf, id).value
    ensures TotalImpactFactor(inputs, w, algorithm) == 1.0
  {
    assert Get(inputs, Dollar).value == Get(InitialWhatIf, Dollar).value;
    assert Get(inputs, Oil).value == Get(InitialWhatIf, Oil).value;
    assert Get(inputs, IronOre).value == Get(InitialWhatIf, IronOre).value;
    assert Get(inputs, CokingCoal).value == Get(InitialWhatIf, CokingCoal).value;
  }

  /** So at the initial inputs the simulation shows the base forecast unchanged. */
  lemma BaselineKeepsForecast(base: seq<ForecastPoint>, inputs: WhatIfData, w: Weights, algorithm: Algorithm)
    requires forall id :: Get(inputs, id).value == Get(InitialWhatIf, id).value
    requires forall i :: 0 <= i < |base| ==> Collapsed(base[i])
    ensures SimulateForecast(base, inputs, w, algorithm) == base
  {
    BaselineFactorIsOne(inputs, w, algorithm);
    RescaleByOne(base);
  }

  /** The LSTM setting amplifies an impact and the linear one damps it, in either direction. */
  lemma AlgorithmsOrdered(inputs: WhatIfData, w: Weights)
    ensures BaseImpact(inputs, w) >= 0.0 ==>
              TotalImpactFactor(inputs, w, Linear) <= TotalImpactFactor(inputs, w, Hybrid)
              <= TotalImpactFactor(inputs, w, Lstm)
    ensures BaseImpact(inputs, w) <= 0.0 ==>
              TotalImpactFactor(inputs, w, Lstm) <= TotalImpactFactor(inputs, w, Hybrid)
              <= TotalImpactFactor(inputs, w, Linear)
  {
  }

  /** With a non-negative dollar weight, a dearer dollar never lowers the factor. */
  lemma DearerDollarRaisesFactor(inputs: WhatIfData, w: Weights, algorithm: Algorithm, value: real)
    requires w.dollar >= 0.0 && value >= inputs.dollar.value
    ensures TotalImpactFactor(inputs, w, algorithm)
            <= TotalImpactFactor(HandleWhatIfChange(inputs, Dollar, value), w, algorithm)
  {
    var moved := HandleWhatIfChange(inputs, Dollar, value);
    var initial := InitialWhatIf.dollar.value;
    var d1 := RelativeChange(inputs, Dollar);
    var d2 := RelativeChange(moved, Dollar);
    QuotientMonotone(inputs.dollar.value - initial, value - initial, initial);
    SameChange(inputs, moved, Oil);
    SameChange(inputs, moved, IronOre);
    SameChange(inputs, moved, CokingCoal);
    var b1, b2 := BaseImpact(inputs, w), BaseImpact(moved, w);
    assert b2 - b1 == d2 * w.dollar - d1 * w.dollar by {
      WeightedSum(inputs, w);
      WeightedSum(moved, w);
    }
    ProductMonotone(d1, d2, w.dollar);
    ProductMonotone(b1, b2, AlgoModifier(algorithm));
  }

  lemma WeightedSum(inputs: WhatIfData, w: Weights)
    ensures BaseImpact(inputs, w)
            == RelativeChange(inputs, Dollar) * w.dollar + RelativeChange(inputs, Oil) * w.oil
               + RelativeChange(inputs, IronOre) * w.ironOre + RelativeChange(inputs, CokingCoal) * w.cokingCoal
  {
  }

  lemma SameChange(a: WhatIfData, b: WhatIfData, id: VarId)
    requires Get(a, id).value == Get(b, id).value
    ensures RelativeChange(a, id) == RelativeChange(b, id)
  {
  }

  lemma ProductMonotone(a: real, b: real, m: real)
    requires a <= b && m >= 0.0
    ensures a * m <= b * m
  {
  }

  lemma QuotientMonotone(a: real, b: real, c: real)
    requires a <= b && c > 0.0
    ensures a / c <= b / c
  {
  }

  /**
   * A worked case: the dollar 10% above its initial value, all weight on the
   * dollar and the linear algorithm give a factor of 1.095, which takes a
   * centre of 1000 to 1095.
   */
  lemma DollarScenario(inputs: WhatIfData, p: ForecastPoint)
    requires inputs == InitialWhatIf.(dollar := InitialWhatIf.dollar.(value := 68035.0))
    requires p == ForecastPoint(Today, 1000, 1000, 1000, None)
    ensures TotalImpactFactor(inputs, Weights(1.0, 0.0, 0.0, 0.0), Linear) == 1.095
    ensures SimulateForecast([p], inputs, Weights(1.0, 0.0, 0.0, 0.0), Linear)
            == [ForecastPoint(Today, 1095, 1095, 1095, None)]
  {
    assert RelativeChange(inputs, Dollar) == 0.1;
    assert Round(1000 as real * 1.095) == 1095;
  }

  /** `handleWhatIfChange(id, value)`: a copy of the inputs in which only `id`'s value changes. */
  function HandleWhatIfChange(inputs: WhatIfData, id: VarId, value: real): (r: WhatIfData)
    ensures Get(r, id) == Get(inputs, id).(value := value)
    ensures forall other :: other != id ==> Get(r, other) == Get(inputs, other)
  {
    match id
    case Dollar => inputs.(dollar := inputs.dollar.(value := value))
    case Oil => inputs.(oil := inputs.oil.(value := value))
    case IronOre => inputs.(ironOre := inputs.ironOre.(value := value))
    case CokingCoal => inputs.(cokingCoal := inputs.cokingCoal.(value := value))
  }

  /** `handleWeightChange(id, value)`: a copy of the weights in which only `id`'s weight changes. */
  function HandleWeightChange(w: Weights, id: VarId, value: real): (r: Weights)
    ensures Weight(r, id) == value
    ensures forall other :: other != id ==> Weight(r, other) == Weight(w, other)
  {
    match id
    case Dollar => w.(dollar := value)
    case Oil => w.(oil := value)
    case IronOre => w.(ironOre := value)
    case CokingCoal => w.(cokingCoal := value)
  }

  // ---------------------------------------------------------------------
  // predictionResult
  // ---------------------------------------------------------------------

  /** `predictionData[product]`: the first entry with that key, if any. */
  function FindProduct(data: seq<ProductPredictions>, product: string): (r: Option<ProductPredictions>)
    ensures r.Some? ==> r.value in data && r.value.key == product
    ensures r.None? <==> forall k :: 0 <= k < |data| ==> data[k].key != product
  {
    if data == [] then None
    else if data[0].key == product then Some(data[0])
    else FindProduct(data[1..], product)
  }

  /** The smallest key of a non-empty horizon table: the first in JavaScript's enumeration. */
  ghost function FirstHorizon(horizons: map<nat, PredictionResult>): (k: nat)
    requires horizons != map[]
    ensures k in horizons && forall j :: j in horizons ==> k <= j
  {
    SmallestExists(horizons.Keys);
    var k :| k in horizons && forall j :: j in horizons ==> k <= j;
    k
  }

  lemma SmallestExists(s: set<nat>)
    requires s != {}
    ensures exists k :: k in s && forall j :: j in s ==> k <= j
    decreases s
  {
    var x :| x in s;
    if s != {x} {
      var rest := s - {x};
      SmallestExists(rest);
      var m :| m in rest && forall j :: j in rest ==> m <= j;
      var k := if x < m then x else m;
      forall j | j in s
        ensures k <= j
      {
        if j != x {
          assert j in rest;
        }
      }
      assert k in s;
    } else {
      forall j | j in s
        ensures x <= j
      {
        assert j == x;
      }
    }
  }

  /**
   * `predictionResult`: the selected product's prediction for the selected
   * horizon, or else the first product's first horizon. Where the fallback
   * itself finds nothing (an empty table, or a first product without
   * horizons) the page throws a `TypeError`; the model gives `None` there.
   */
  ghost function PredictionResultFor(data: seq<ProductPredictions>, product: string, horizon: nat)
    : (r: Option<PredictionResult>)
    ensures (exists k :: 0 <= k < |data| && data[k].key == product) &&
            horizon in FindProduct(data, product).value.horizons ==>
              r == Some(FindProduct(data, product).value.horizons[horizon])
    ensures r.None? <==>
              (FindProduct(data, product).None? || horizon !in FindProduct(data, product).value.horizons) &&
              (data == [] || data[0].horizons == map[])
    ensures (FindProduct(data, product).None? || horizon !in FindProduct(data, product).value.horizons) &&
            data != [] && data[0].horizons != map[] ==>
              r == Some(data[0].horizons[FirstHorizon(data[0].horizons)])
  {
    var found := FindProduct(data, product);
    if found.Some? && horizon in found.value.horizons then Some(found.value.horizons[horizon])
    else if data == [] || data[0].horizons == map[] then None
    else Some(data[0].horizons[FirstHorizon(data[0].horizons)])
  }

  /**
   * With the horizons 7, 30 and 90 days, an unknown product or horizon shows
   * the first product's 7-day prediction, wherever "7" was written in the table.
   */
  lemma FallbackIsShortestHorizon(data: seq<ProductPredictions>, product: string, horizon: nat)
    requires data != [] && data[0].horizons.Keys == {7, 30, 90}
    requires FindProduct(data, product).None? || horizon !in FindProduct(data, product).value.horizons
    ensures PredictionResultFor(data, product, horizon) == Some(data[0].horizons[7])
  {
    var k := FirstHorizon(data[0].horizons);
    assert 7 in data[0].horizons;
    assert k <= 7;
  }
}
