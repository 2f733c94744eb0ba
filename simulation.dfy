/**
 * The price-simulation library: synthetic history, sliding-window training set,
 * autoregressive forecast, volatility bounds, recommendation and the assembled result.
 * The fitted network is an arbitrary function from a window of prices to the next price;
 * every `Math.random()` draw is a parameter in [0, 1).
 */
module Simulation {
  import opened Wrappers
  import opened JsNumber
  import opened Series

  datatype Tier = Low | Medium | High

  /** No generated price falls below one cent. */
  const PriceFloor: real := 0.01
  const WindowSize: nat := 10

  /** The network after `model.fit`: maps a window of prices to the next price. */
  type Predictor = seq<real> -> real

  // ---------------------------------------------------------------- dates

  /** `generateDateRange`: `days` consecutive day numbers from `start`. */
  method GenerateDateRange(start: int, days: int) returns (dates: seq<int>)
    ensures |dates| == if days > 0 then days else 0
    ensures forall i :: 0 <= i < |dates| ==> dates[i] == start + i
  {
    dates := [];
    var current := start;
    var i := 0;
    while i < days
      invariant 0 <= i <= (if days > 0 then days else 0)
      invariant |dates| == i && current == start + i
      invariant forall k :: 0 <= k < i ==> dates[k] == start + k
    {
      dates := dates + [current];
      current := current + 1;
      i := i + 1;
    }
  }

  // ---------------------------------------------------------------- history

  /**
   * One day of the synthetic walk. `draw` is the `Math.random()` behind the random walk,
   * `sine` is `Math.sin(i / 10)` for the day index i.
   */
  function NextPrice(previous: real, draw: real, sine: real, volatility: real): real
  {
    var randomWalk := draw * 2.0 - 1.0;
    var trend := sine * 0.5;
    var changePercent := randomWalk * volatility + trend * volatility / 2.0;
    Max(previous * (1.0 + changePercent), PriceFloor)
  }

  /** The series `generateHistoricalPrices` builds: the base price, then one step per draw. */
  function History(basePrice: real, draws: seq<real>, sines: seq<real>, volatility: real): (h: seq<real>)
    requires |draws| == |sines|
    ensures |h| == |draws| + 1 && h[0] == basePrice
    ensures forall i :: 1 <= i < |h| ==> h[i] >= PriceFloor
    decreases |draws|
  {
    if draws == [] then [basePrice]
    else
      var n := |draws| - 1;
      var prefix := History(basePrice, draws[..n], sines[..n], volatility);
      prefix + [NextPrice(prefix[n], draws[n], sines[n], volatility)]
  }

  /**
   * `generateHistoricalPrices(basePrice, days, volatility)`. The draw and the sine of
   * day i (1 <= i < days) are `draws[i - 1]` and `sines[i - 1]`.
   */
  method GenerateHistoricalPrices(basePrice: real, days: int, volatility: real,
                                  draws: seq<real>, sines: seq<real>) returns (prices: seq<real>)
    requires |draws| == |sines| == (if days > 1 then days - 1 else 0)
    requires forall k :: 0 <= k < |draws| ==> 0.0 <= draws[k] < 1.0 && -1.0 <= sines[k] <= 1.0
    ensures prices == History(basePrice, draws, sines, volatility)
    ensures |prices| == (if days > 1 then days else 1) && prices[0] == basePrice
    ensures forall i :: 1 <= i < |prices| ==> prices[i] >= PriceFloor
  {
    prices := [basePrice];
    var i := 1;
    while i < days
      invariant 1 <= i <= (if days > 1 then days else 1)
      invariant prices == History(basePrice, draws[..i - 1], sines[..i - 1], volatility)
    {
      var randomWalk := draws[i - 1] * 2.0 - 1.0;
      var trend := sines[i - 1] * 0.5;
      var changePercent := randomWalk * volatility + trend * volatility / 2.0;
      var prevPrice := prices[i - 1];
      var newPrice := prevPrice * (1.0 + changePercent);
      assert Max(newPrice, PriceFloor) == NextPrice(prevPrice, draws[i - 1], sines[i - 1], volatility);
      assert draws[..i][..i - 1] == draws[..i - 1] && sines[..i][..i - 1] == sines[..i - 1];
      assert History(basePrice, draws[..i], sines[..i], volatility)
          == prices + [NextPrice(prevPrice, draws[i - 1], sines[i - 1], volatility)];
      prices := prices + [Max(newPrice, PriceFloor)];
      i := i + 1;
    }
    assert draws[..|draws|] == draws && sines[..|sines|] == sines;
  }

  // ---------------------------------------------------------------- training set

  /** The training examples of a series: every window of `windowSize` prices and the price after it. */
  ghost predicate IsTrainingSet(prices: seq<real>, windowSize: nat, inputs: seq<seq<real>>, targets: seq<real>)
  {
    && |inputs| == |targets| == (if |prices| > windowSize then |prices| - windowSize else 0)
    && forall i :: 0 <= i < |inputs| ==>
         inputs[i] == prices[i..i + windowSize] && targets[i] == prices[i + windowSize]
  }

  /** The window loop of `trainPricePredictionModel`. */
  method BuildTrainingSet(prices: seq<real>, windowSize: nat) returns (inputs: seq<seq<real>>, targets: seq<real>)
    ensures IsTrainingSet(prices, windowSize, inputs, targets)
  {
    inputs, targets := [], [];
    var i := 0;
    while i <= |prices| - windowSize - 1
      invariant 0 <= i <= (if |prices| > windowSize then |prices| - windowSize else 0)
      invariant |inputs| == |targets| == i
      invariant forall k :: 0 <= k < i ==> inputs[k] == prices[k..k + windowSize] && targets[k] == prices[k + windowSize]
    {
      var windowData := prices[i..i + windowSize];
      var target := prices[i + windowSize];
      inputs := inputs + [windowData];
      targets := targets + [target];
      i := i + 1;
    }
  }

  /**
   * Each example is a contiguous stretch of the series: the window followed by its target,
   * and the next window is this one slid by one onto the target.
   */
  lemma TrainingSetSlides(prices: seq<real>, windowSize: nat, inputs: seq<seq<real>>, targets: seq<real>)
    requires IsTrainingSet(prices, windowSize, inputs, targets)
    ensures forall i :: 0 <= i < |inputs| ==> inputs[i] + [targets[i]] == prices[i..i + windowSize + 1]
    ensures windowSize > 0 ==>
      forall i :: 0 <= i < |inputs| - 1 ==> inputs[i + 1] == inputs[i][1..] + [targets[i]]
  {
    forall i | 0 <= i < |inputs|
      ensures inputs[i] + [targets[i]] == prices[i..i + windowSize + 1]
    {
      assert prices[i..i + windowSize + 1] == prices[i..i + windowSize] + [prices[i + windowSize]];
    }
    if windowSize > 0 {
      forall i | 0 <= i < |inputs| - 1
        ensures inputs[i + 1] == inputs[i][1..] + [targets[i]]
      {
        assert prices[i + 1..i + 1 + windowSize] == prices[i..i + windowSize + 1][1..];
      }
    }
  }

  // ---------------------------------------------------------------- forecast

  /** `historicalPrices.slice(-windowSize)`; note that `slice(-0)` is the whole array. */
  function LastWindow(history: seq<real>, windowSize: nat): (w: seq<real>)
    ensures 0 < windowSize <= |history| ==> w == history[|history| - windowSize..]
    ensures windowSize == 0 || windowSize >= |history| ==> w == history
  {
    if windowSize == 0 || windowSize >= |history| then history else history[|history| - windowSize..]
  }

  /** `[...lastWindow.slice(1), next]`. */
  function Slide(window: seq<real>, next: real): (w: seq<real>)
    ensures |w| == if window == [] then 1 else |window|
    ensures w[|w| - 1] == next
  {
    (if window == [] then [] else window[1..]) + [next]
  }

  /** n autoregressive steps: predict from the window, then slide the prediction into it. */
  function Forecast(model: Predictor, window: seq<real>, n: nat): (r: seq<real>)
    ensures |r| == n
    decreases n
  {
    if n == 0 then [] else [model(window)] + Forecast(model, Slide(window, model(window)), n - 1)
  }

  /** The i-th prediction of f is the model applied to the |window| values before it in window ++ f. */
  ghost predicate FedBack(model: Predictor, window: seq<real>, f: seq<real>, i: int)
    requires 0 <= i < |f|
  {
    f[i] == model((window + f)[i..i + |window|])
  }

  /**
   * The window the i-th prediction is made from is the window of the same width ending
   * just before it in the series history ++ predictions.
   */
  lemma {:induction false} ForecastWindows(model: Predictor, window: seq<real>, n: nat)
    requires window != []
    ensures forall i :: 0 <= i < n ==> FedBack(model, window, Forecast(model, window, n), i)
    decreases n
  {
    var f := Forecast(model, window, n);
    if n > 0 {
      var p := model(window);
      var next := Slide(window, p);
      var rest := Forecast(model, next, n - 1);
      ForecastWindows(model, next, n - 1);
      assert next == window[1..] + [p];
      assert f == [p] + rest;
      assert next + rest == (window + f)[1..];
      forall i | 0 <= i < n
        ensures FedBack(model, window, f, i)
      {
        if i == 0 {
          assert (window + f)[0..0 + |window|] == window;
        } else {
          assert FedBack(model, next, rest, i - 1);
          assert |next| == |window| && f[i] == rest[i - 1];
          assert (next + rest)[i - 1..i - 1 + |next|] == (window + f)[i..i + |window|];
        }
      }
    }
  }

  /** Each forecast is the model applied to the window of the same width just before it. */
  lemma ForecastFedBack(model: Predictor, window: seq<real>, n: nat)
    requires window != []
    ensures var f := Forecast(model, window, n);
      forall i :: 0 <= i < n ==> f[i] == model((window + f)[i..i + |window|])
  {
    var f := Forecast(model, window, n);
    ForecastWindows(model, window, n);
    forall i | 0 <= i < n
      ensures f[i] == model((window + f)[i..i + |window|])
    {
      assert FedBack(model, window, f, i);
    }
  }

  /** One step of the prediction loop extends the forecast made so far. */
  lemma ForecastStep(model: Predictor, done: seq<real>, window: seq<real>, k: nat)
    requires k > 0
    ensures done + Forecast(model, window, k)
         == (done + [model(window)]) + Forecast(model, Slide(window, model(window)), k - 1)
  {
    var p := model(window);
    var rest := Forecast(model, Slide(window, p), k - 1);
    assert Forecast(model, window, k) == [p] + rest;
    AppendAssociative(done, [p], rest);
  }

  lemma AppendAssociative(a: seq<real>, b: seq<real>, c: seq<real>)
    ensures a + (b + c) == (a + b) + c
  {
  }

  /** `predictPrices`: `futureDays` predictions, each window slid by the previous prediction. */
  method PredictPrices(model: Predictor, history: seq<real>, windowSize: nat, futureDays: int)
    returns (predictions: seq<real>)
    ensures |predictions| == (if futureDays > 0 then futureDays else 0)
    ensures predictions == Forecast(model, LastWindow(history, windowSize), |predictions|)
    ensures LastWindow(history, windowSize) != [] ==>
      var w := LastWindow(history, windowSize);
      forall i :: 0 <= i < |predictions| ==> predictions[i] == model((w + predictions)[i..i + |w|])
  {
    var n: nat := if futureDays > 0 then futureDays else 0;
    var lastWindow := LastWindow(history, windowSize);
    ghost var first := lastWindow;
    predictions := [];
    var i := 0;
    while i < futureDays
      invariant 0 <= i <= n
      invariant predictions + Forecast(model, lastWindow, n - i) == Forecast(model, first, n)
    {
      var predictedValue := model(lastWindow);
      ForecastStep(model, predictions, lastWindow, n - i);
      predictions := predictions + [predictedValue];
      lastWindow := Slide(lastWindow, predictedValue);
      i := i + 1;
    }
    assert predictions + Forecast(model, lastWindow, 0) == predictions;
    if first != [] {
      ForecastFedBack(model, first, n);
    }
  }

  // ---------------------------------------------------------------- bounds

  /** The band half-width of `calculateVolatilityBounds` for each rating. */
  function Multiplier(rating: Tier): real
  {
    match rating
    case Low => 0.05
    case Medium => 0.15
    case High => 0.25
  }

  datatype Bounds = Bounds(upper: seq<real>, lower: seq<real>)

  /** `p * (1 + m)` and `p * (1 - m)` for every prediction p. */
  function BoundsFor(predictions: seq<real>, m: real): (b: Bounds)
    ensures |b.upper| == |b.lower| == |predictions|
    ensures forall i :: 0 <= i < |predictions| ==>
      b.upper[i] == predictions[i] * (1.0 + m) && b.lower[i] == predictions[i] * (1.0 - m)
    ensures m >= 0.0 ==> forall i :: 0 <= i < |predictions| && predictions[i] >= 0.0 ==>
      b.lower[i] <= predictions[i] <= b.upper[i]
  {
    var b := Bounds(seq(|predictions|, i requires 0 <= i < |predictions| => predictions[i] * (1.0 + m)),
                    seq(|predictions|, i requires 0 <= i < |predictions| => predictions[i] * (1.0 - m)));
    assert m >= 0.0 ==> forall i :: 0 <= i < |predictions| && predictions[i] >= 0.0 ==>
      predictions[i] * m >= 0.0;
    b
  }

  /** `calculateVolatilityBounds(predictions, rating)`. */
  function CalculateVolatilityBounds(predictions: seq<real>, rating: Tier): (b: Bounds)
    ensures |b.upper| == |b.lower| == |predictions|
    ensures forall i :: 0 <= i < |predictions| ==>
      && b.upper[i] == predictions[i] * (1.0 + Multiplier(rating))
      && b.lower[i] == predictions[i] * (1.0 - Multiplier(rating))
    ensures forall i :: 0 <= i < |predictions| && predictions[i] >= 0.0 ==>
      b.lower[i] <= predictions[i] <= b.upper[i]
  {
    BoundsFor(predictions, Multiplier(rating))
  }

  // ---------------------------------------------------------------- recommendation

  datatype Advice = Increase(percent: int) | Reduce(percent: int) | Maintain

  /** The change from `lastPrice` to `predictedPrice`, in percent of `lastPrice`. */
  function PriceDifference(lastPrice: real, predictedPrice: real): real
    requires lastPrice != 0.0
  {
    (predictedPrice - lastPrice) / lastPrice * 100.0
  }

  /** The decision of `generateRecommendation`: thresholds at +5 and -5 percent, strict. */
  function Recommend(lastPrice: real, predictedPrice: real): Advice
    requires lastPrice != 0.0
  {
    var priceDifference := PriceDifference(lastPrice, predictedPrice);
    if priceDifference > 5.0 then Increase(Round(priceDifference / 2.0))
    else if priceDifference < -5.0 then Reduce(Round(-priceDifference / 2.0))
    else Maintain
  }

  /**
   * An increase above +5 percent, a reduction below -5 percent, otherwise keep the position;
   * the suggested adjustment is half the change, rounded, and so at least 3 percent.
   */
  lemma RecommendThresholds(lastPrice: real, predictedPrice: real)
    requires lastPrice != 0.0
    ensures var a := Recommend(lastPrice, predictedPrice);
      var d := PriceDifference(lastPrice, predictedPrice);
      && (a.Increase? <==> d > 5.0)
      && (a.Reduce? <==> d < -5.0)
      && (a.Maintain? <==> -5.0 <= d <= 5.0)
      && (a.Increase? ==> a.percent >= 3 && a.percent as real - 0.5 <= d / 2.0 < a.percent as real + 0.5)
      && (a.Reduce? ==> a.percent >= 3 && a.percent as real - 0.5 <= -d / 2.0 < a.percent as real + 0.5)
  {
  }

  /** The sentence shown for an advice. */
  function AdviceText(asset: string, a: Advice): string
  {
    match a
    case Increase(p) =>
      "Consider increasing your " + asset + " position by " + IntText(p, 10) + "% based on current simulation data."
    case Reduce(p) =>
      "Consider reducing your " + asset + " position by " + IntText(p, 10) + "% based on current simulation data."
    case Maintain =>
      "Your current " + asset + " position appears optimal based on simulation data. Consider maintaining current levels."
  }

  /** `generateRecommendation(asset, lastPrice, predictedPrice)`. */
  function GenerateRecommendation(asset: string, lastPrice: real, predictedPrice: real): string
    requires lastPrice != 0.0
  {
    AdviceText(asset, Recommend(lastPrice, predictedPrice))
  }

  /** The three sample cases: +6% and -6% give 3%, +2% keeps the position. */
  lemma RecommendationSamples()
    ensures Recommend(100.0, 106.0) == Increase(3)
    ensures Recommend(100.0, 94.0) == Reduce(3)
    ensures Recommend(100.0, 102.0) == Maintain
  {
  }

  // ---------------------------------------------------------------- complete run

  /** The historical volatility factor `runCompleteSimulation` uses for each rating. */
  function VolatilityFactor(rating: Tier): real
  {
    match rating
    case Low => 0.02
    case Medium => 0.03
    case High => 0.05
  }

  /** `Math.round((1 - volatilityFactor * 5) * 100)`. */
  function Confidence(rating: Tier): (c: int)
    ensures c == match rating case Low => 90 case Medium => 85 case High => 75
  {
    Round((1.0 - VolatilityFactor(rating) * 5.0) * 100.0)
  }

  datatype CompleteSimulation = CompleteSimulation(
    asset: string,
    prediction: real,
    confidence: int,
    volatility: Tier,
    upperBound: real,
    lowerBound: real,
    recommendation: string,
    simulationData: SimulationData)

  datatype SimulationError =
    | EmptyTrainingSet   // `tf.tensor2d([])` throws: the history is not longer than the window
    | NoPrediction       // `predictions[-1]` is undefined and `.toFixed` throws

  /** `days` consecutive day numbers from `start`, the value GenerateDateRange computes. */
  function DateRange(start: int, days: int): seq<int>
  {
    seq(if days > 0 then days else 0, i => start + i)
  }

  /** The result record built from the dates, the history and the forecast. */
  function Summarize(asset: string, volatility: Tier, dates: seq<int>,
                     history: seq<real>, predictions: seq<real>): CompleteSimulation
    requires |history| > 0 && history[|history| - 1] >= PriceFloor && |predictions| > 0
  {
    var bounds := CalculateVolatilityBounds(predictions, volatility);
    var last := |predictions| - 1;
    CompleteSimulation(
      asset,
      ToCents(predictions[last]),
      Confidence(volatility),
      volatility,
      ToCents(bounds.upper[last]),
      ToCents(bounds.lower[last]),
      GenerateRecommendation(asset, history[|history| - 1], predictions[last]),
      Assemble(dates, history, predictions, bounds.upper, bounds.lower))
  }

  /** What a complete run yields for given draws and predictor. */
  function CompleteRun(asset: string, currentPrice: real, historicalDays: int, futureDays: int,
                       volatility: Tier, today: int, model: Predictor,
                       draws: seq<real>, sines: seq<real>): Result<CompleteSimulation, SimulationError>
    requires |draws| == |sines|
  {
    var history := History(currentPrice, draws, sines, VolatilityFactor(volatility));
    if |history| <= WindowSize then Failure(EmptyTrainingSet)
    else if futureDays <= 0 then Failure(NoPrediction)
    else
      var predictions := Forecast(model, LastWindow(history, WindowSize), futureDays);
      Success(Summarize(asset, volatility, DateRange(today - historicalDays, historicalDays + futureDays),
                        history, predictions))
  }

  /**
   * `runCompleteSimulation(asset, currentPrice, historicalDays, futureDays, volatility)`.
   * `today` is the current day number; `draws`/`sines` drive the history.
   */
  method RunCompleteSimulation(asset: string, currentPrice: real, historicalDays: int, futureDays: int,
                               volatility: Tier, today: int, model: Predictor,
                               draws: seq<real>, sines: seq<real>)
    returns (r: Result<CompleteSimulation, SimulationError>)
    requires |draws| == |sines| == (if historicalDays > 1 then historicalDays - 1 else 0)
    requires forall k :: 0 <= k < |draws| ==> 0.0 <= draws[k] < 1.0 && -1.0 <= sines[k] <= 1.0
    ensures r == CompleteRun(asset, currentPrice, historicalDays, futureDays, volatility, today, model, draws, sines)
  {
    var allDates := GenerateDateRange(today - historicalDays, historicalDays + futureDays);
    assert allDates == DateRange(today - historicalDays, historicalDays + futureDays);
    var historicalPrices := GenerateHistoricalPrices(currentPrice, historicalDays, VolatilityFactor(volatility), draws, sines);
    var inputs, targets := BuildTrainingSet(historicalPrices, WindowSize);
    if |inputs| == 0 {
      return Failure(EmptyTrainingSet);
    }
    var predictions := PredictPrices(model, historicalPrices, WindowSize, futureDays);
    if |predictions| == 0 {
      return Failure(NoPrediction);
    }
    CompleteRunSucceeds(asset, currentPrice, historicalDays, futureDays, volatility, today, model, draws, sines);
    r := Success(Summarize(asset, volatility, allDates, historicalPrices, predictions));
  }

  /** Past both guards, a complete run is the summary of the history and its forecast. */
  lemma CompleteRunSucceeds(asset: string, currentPrice: real, historicalDays: int, futureDays: int,
                            volatility: Tier, today: int, model: Predictor,
                            draws: seq<real>, sines: seq<real>)
    requires |draws| == |sines| == (if historicalDays > 1 then historicalDays - 1 else 0)
    requires historicalDays > WindowSize && futureDays > 0
    ensures var history := History(currentPrice, draws, sines, VolatilityFactor(volatility));
      && |history| == historicalDays
      && CompleteRun(asset, currentPrice, historicalDays, futureDays, volatility, today, model, draws, sines)
         == Success(Summarize(asset, volatility, DateRange(today - historicalDays, historicalDays + futureDays),
                              history, Forecast(model, LastWindow(history, WindowSize), futureDays)))
  {
  }

  /**
   * A complete run fails exactly when the history is too short to train on (no more than
   * `WindowSize` days) or no day is forecast.
   */
  lemma CompleteRunOutcome(asset: string, currentPrice: real, historicalDays: int, futureDays: int,
                           volatility: Tier, today: int, model: Predictor,
                           draws: seq<real>, sines: seq<real>)
    requires |draws| == |sines| == (if historicalDays > 1 then historicalDays - 1 else 0)
    ensures var r := CompleteRun(asset, currentPrice, historicalDays, futureDays, volatility, today, model, draws, sines);
      && (historicalDays <= WindowSize <==> r == Failure(EmptyTrainingSet))
      && (historicalDays > WindowSize && futureDays <= 0 <==> r == Failure(NoPrediction))
      && (historicalDays > WindowSize && futureDays > 0 <==> r.Success?)
  {
  }

  /**
   * The summary lays the history then nulls in `actual`, nulls then the rounded forecast in
   * the other three series, and carries the confidence of its rating.
   */
  lemma SummarizeLayout(asset: string, volatility: Tier, dates: seq<int>,
                        history: seq<real>, predictions: seq<real>)
    requires |history| > 0 && history[|history| - 1] >= PriceFloor && |predictions| > 0
    ensures var s := Summarize(asset, volatility, dates, history, predictions);
      var d := s.simulationData;
      var h := |history|;
      var n := |history| + |predictions|;
      && s.confidence in {90, 85, 75}
      && s.prediction == ToCents(predictions[|predictions| - 1])
      && d.dates == dates
      && |d.actual| == |d.predicted| == |d.upperBound| == |d.lowerBound| == n
      && (forall i :: 0 <= i < h ==>
            d.actual[i] == Some(history[i]) && d.predicted[i].None? && d.upperBound[i].None? && d.lowerBound[i].None?)
      && (forall i :: h <= i < n ==>
            d.actual[i].None? && d.predicted[i] == Some(ToCents(predictions[i - h]))
            && d.upperBound[i].Some? && d.lowerBound[i].Some?)
  {
    var b := CalculateVolatilityBounds(predictions, volatility);
    assert Summarize(asset, volatility, dates, history, predictions).simulationData
        == Assemble(dates, history, predictions, b.upper, b.lower);
  }

  /** Rounding to cents keeps every non-negative forecast of the summary inside its band. */
  lemma SummarizeKeepsBand(asset: string, volatility: Tier, dates: seq<int>,
                           history: seq<real>, predictions: seq<real>)
    requires |history| > 0 && history[|history| - 1] >= PriceFloor && |predictions| > 0
    ensures var d := Summarize(asset, volatility, dates, history, predictions).simulationData;
      forall i :: |history| <= i < |history| + |predictions| && predictions[i - |history|] >= 0.0 ==>
        d.lowerBound[i].value <= d.predicted[i].value <= d.upperBound[i].value
  {
    var b := CalculateVolatilityBounds(predictions, volatility);
    assert Summarize(asset, volatility, dates, history, predictions).simulationData
        == Assemble(dates, history, predictions, b.upper, b.lower);
    AssembleKeepsBand(dates, history, predictions, b.upper, b.lower);
  }

  /**
   * A successful run covers `historicalDays + futureDays` consecutive dates starting
   * `historicalDays` days before today, its history opens on the current price, and every
   * later simulated price is at or above the floor.
   */
  lemma CompleteRunLayout(asset: string, currentPrice: real, historicalDays: int, futureDays: int,
                          volatility: Tier, today: int, model: Predictor,
                          draws: seq<real>, sines: seq<real>)
    requires |draws| == |sines| == (if historicalDays > 1 then historicalDays - 1 else 0)
    requires historicalDays > WindowSize && futureDays > 0
    ensures var r := CompleteRun(asset, currentPrice, historicalDays, futureDays, volatility, today, model, draws, sines);
      var d := r.value.simulationData;
      && r.Success?
      && |d.dates| == historicalDays + futureDays
      && (forall i :: 0 <= i < |d.dates| ==> d.dates[i] == today - historicalDays + i)
      && |d.actual| == historicalDays + futureDays
      && d.actual[0] == Some(currentPrice)
      && (forall i :: 1 <= i < historicalDays ==> d.actual[i].Some? && d.actual[i].value >= PriceFloor)
  {
    CompleteRunSucceeds(asset, currentPrice, historicalDays, futureDays, volatility, today, model, draws, sines);
    var history := History(currentPrice, draws, sines, VolatilityFactor(volatility));
    SummarizeLayout(asset, volatility, DateRange(today - historicalDays, historicalDays + futureDays),
                    history, Forecast(model, LastWindow(history, WindowSize), futureDays));
  }
}
