/**
 * The simulation hook: `runSimulation` builds its own 30-day history, trains on windows of
 * ten, forecasts seven days, draws a confidence, a volatility and a liquidity rating, and
 * prices gas, yield and break-even before posting the result to the server.
 * Every `Math.random()` draw is a field of `Draws`; `Math.cos(i * 0.4)` is a bounded real.
 */
module SimulationHook {
  import opened Wrappers
  import opened JsNumber
  import opened Series
  import opened Simulation

  const HistoryDays: nat := 30
  const FutureDays: nat := 7
  /** Total transaction costs, in percent of the entry price. */
  const TransactionCostPercent: real := 0.3

  /** The random inputs of one run, in the order the hook draws them. */
  datatype Draws = Draws(
    volatilityDraw: real,     // behind `volatilityFactor`
    trendDraws: seq<real>,    // one per history day: the sign of its trend
    cosines: seq<real>,       // `Math.cos(i * 0.4)` for each history day
    confidenceDraw: real,
    volatilityValue: real,
    yieldDraw: real,
    gasDraw: real,
    volumeScore: real)

  predicate Unit(x: real)
  {
    0.0 <= x < 1.0
  }

  predicate ValidDraws(d: Draws)
  {
    && Unit(d.volatilityDraw) && Unit(d.confidenceDraw) && Unit(d.volatilityValue)
    && Unit(d.yieldDraw) && Unit(d.gasDraw) && Unit(d.volumeScore)
    && |d.trendDraws| == HistoryDays && |d.cosines| == HistoryDays
    && forall i :: 0 <= i < HistoryDays ==> Unit(d.trendDraws[i]) && -1.0 <= d.cosines[i] <= 1.0
  }

  // ---------------------------------------------------------------- history

  /** `Math.random() * 0.5 + 0.5`. */
  function VolatilityScale(draw: real): (f: real)
    ensures Unit(draw) ==> 0.5 <= f < 1.0
  {
    draw * 0.5 + 0.5
  }

  function TrendSign(draw: real): real
  {
    if draw > 0.5 then 1.0 else -1.0
  }

  /** The price of history day `day`: a cosine swing and a linear trend around the current price. */
  function HookPrice(currentPrice: real, scale: real, day: nat, cosine: real, trendDraw: real): (p: real)
    ensures p >= PriceFloor
  {
    var randomWalk := cosine * currentPrice * 0.15 * scale;
    var trend := day as real * currentPrice * 0.001 * TrendSign(trendDraw);
    Max(currentPrice + randomWalk + trend, PriceFloor)
  }

  /** The hook's `dates.map(...)`: thirty prices, none below the floor. */
  function HookHistory(currentPrice: real, d: Draws): (h: seq<real>)
    requires ValidDraws(d)
    ensures |h| == HistoryDays
    ensures forall i :: 0 <= i < |h| ==> h[i] >= PriceFloor
  {
    var scale := VolatilityScale(d.volatilityDraw);
    seq(HistoryDays, i requires 0 <= i < HistoryDays => HookPrice(currentPrice, scale, i, d.cosines[i], d.trendDraws[i]))
  }

  /** The thirty days before today, oldest first, then the seven days after today. */
  function HookDates(today: int): seq<int>
  {
    seq(HistoryDays, i => today - (HistoryDays - i)) + seq(FutureDays, i => today + i + 1)
  }

  /** The 37 dates increase day by day except for one step of two over today, which is absent. */
  lemma HookDatesSkipToday(today: int)
    ensures var ds := HookDates(today);
      && |ds| == HistoryDays + FutureDays
      && ds[0] == today - HistoryDays && ds[|ds| - 1] == today + FutureDays
      && (forall i :: 0 <= i < |ds| - 1 && i != HistoryDays - 1 ==> ds[i + 1] == ds[i] + 1)
      && ds[HistoryDays] == ds[HistoryDays - 1] + 2
      && today !in ds
  {
    var ds := HookDates(today);
    forall i | 0 <= i < |ds|
      ensures ds[i] == if i < HistoryDays then today - HistoryDays + i else today + i - HistoryDays + 1
    {
    }
  }

  /** The training set the hook builds from its history: twenty windows of ten. */
  lemma HookTrainingExamples(prices: seq<real>, inputs: seq<seq<real>>, targets: seq<real>)
    requires |prices| == HistoryDays && IsTrainingSet(prices, WindowSize, inputs, targets)
    ensures |inputs| == |targets| == HistoryDays - WindowSize
    ensures forall i :: 0 <= i < |inputs| ==> |inputs[i]| == WindowSize && inputs[i] + [targets[i]] == prices[i..i + WindowSize + 1]
  {
    TrainingSetSlides(prices, WindowSize, inputs, targets);
  }

  // ---------------------------------------------------------------- ratings

  /** `volatilityValue < 0.3 ? 'Low' : volatilityValue < 0.7 ? 'Medium' : 'High'`. */
  function VolatilityTier(v: real): (t: Tier)
    ensures t == Low <==> v < 0.3
    ensures t == Medium <==> 0.3 <= v < 0.7
    ensures t == High <==> v >= 0.7
  {
    if v < 0.3 then Low else if v < 0.7 then Medium else High
  }

  /** `volumeScore < 0.3 ? 'High' : volumeScore < 0.7 ? 'Medium' : 'Low'`. */
  function LiquidityTier(score: real): Tier
  {
    if score < 0.3 then High else if score < 0.7 then Medium else Low
  }

  function Flip(t: Tier): Tier
  {
    match t
    case Low => High
    case Medium => Medium
    case High => Low
  }

  /** Liquidity impact uses the volatility cut points with the ratings mirrored. */
  lemma LiquidityMirrorsVolatility(score: real)
    ensures LiquidityTier(score) == Flip(VolatilityTier(score))
    ensures Flip(LiquidityTier(score)) == VolatilityTier(score)
  {
  }

  /** `volatilityValue * 0.2 + 0.05`. */
  function BoundMultiplier(v: real): (m: real)
    ensures Unit(v) ==> 0.05 <= m < 0.25
  {
    v * 0.2 + 0.05
  }

  /**
   * The hook's continuous multiplier grows with the volatility value and stays within 0.06
   * of the table value the library uses for the same rating.
   */
  lemma BoundMultiplierNearTable(v: real, w: real)
    requires Unit(v) && Unit(w) && v <= w
    ensures BoundMultiplier(v) <= BoundMultiplier(w)
    ensures -0.06 <= BoundMultiplier(v) - Multiplier(VolatilityTier(v)) < 0.06
  {
  }

  /** `Math.round((1 - Math.random() * 0.3) * 100)`. */
  function HookConfidence(draw: real): (c: int)
    ensures Unit(draw) ==> 70 <= c <= 100
  {
    Round((1.0 - draw * 0.3) * 100.0)
  }

  // ---------------------------------------------------------------- costs

  /** The network gas price in Gwei: 50 for Ethereum, 25 for any other asset. */
  function GasBase(asset: string): real
  {
    if asset == "Ethereum" then 50.0 else 25.0
  }

  /** `currentNetworkGasPrice * (3 + Math.random() * 2)`. */
  function GasFees(asset: string, draw: real): (g: real)
    ensures Unit(draw) ==> 3.0 * GasBase(asset) <= g < 5.0 * GasBase(asset)
  {
    GasBase(asset) * (3.0 + draw * 2.0)
  }

  /** `5 + Math.random() * 10`, the annual yield in percent. */
  function YieldValue(draw: real): (y: real)
    ensures Unit(draw) ==> 5.0 <= y < 15.0
  {
    5.0 + draw * 10.0
  }

  /** The entry price raised by the transaction costs. */
  function BreakEven(entryPrice: real): (b: real)
    ensures b == entryPrice * 1.003
    ensures entryPrice > 0.0 ==> b > entryPrice
  {
    entryPrice * (1.0 + TransactionCostPercent / 100.0)
  }

  // ---------------------------------------------------------------- result

  datatype HookResult = HookResult(
    asset: string,
    prediction: real,
    confidence: int,
    volatility: Tier,
    upperBound: real,
    lowerBound: real,
    recommendation: string,
    yieldValue: real,
    gasFees: real,
    liquidityImpact: Tier,
    breakEvenPoint: real,
    simulationData: SimulationData)

  /** The hook's `simulationData`: the common layout over its 37 dates and its bounds. */
  function HookSeries(today: int, volatilityValue: real, history: seq<real>, predictions: seq<real>): SimulationData
  {
    var b := BoundsFor(predictions, BoundMultiplier(volatilityValue));
    Assemble(HookDates(today), history, predictions, b.upper, b.lower)
  }

  /** The result record the hook builds from its history and forecast. */
  function HookSummary(asset: string, today: int, d: Draws, history: seq<real>, predictions: seq<real>): HookResult
    requires |history| == HistoryDays && history[HistoryDays - 1] >= PriceFloor && |predictions| == FutureDays
  {
    var b := BoundsFor(predictions, BoundMultiplier(d.volatilityValue));
    var lastActualPrice := history[HistoryDays - 1];
    var lastPrediction := predictions[FutureDays - 1];
    HookResult(
      asset,
      ToCents(lastPrediction),
      HookConfidence(d.confidenceDraw),
      VolatilityTier(d.volatilityValue),
      ToCents(b.upper[FutureDays - 1]),
      ToCents(b.lower[FutureDays - 1]),
      GenerateRecommendation(asset, lastActualPrice, lastPrediction),
      ToCents(YieldValue(d.yieldDraw)),
      ToCents(GasFees(asset, d.gasDraw)),
      LiquidityTier(d.volumeScore),
      ToCents(BreakEven(lastActualPrice)),
      HookSeries(today, d.volatilityValue, history, predictions))
  }

  /** What one run of the hook's pipeline yields for a current price, draws and predictor. */
  function HookRun(asset: string, currentPrice: real, today: int, model: Predictor, d: Draws): HookResult
    requires ValidDraws(d)
  {
    var history := HookHistory(currentPrice, d);
    HookSummary(asset, today, d, history, Forecast(model, LastWindow(history, WindowSize), FutureDays))
  }

  /**
   * The pipeline of `runSimulation` between fetching the market data and posting the result:
   * history, training windows, the seven-day forecast and the result record.
   */
  method ComputeSimulation(asset: string, currentPrice: real, today: int, model: Predictor, d: Draws)
    returns (result: HookResult)
    requires ValidDraws(d)
    ensures result == HookRun(asset, currentPrice, today, model, d)
  {
    var historicalPrices := HookHistory(currentPrice, d);
    // the examples `model.fit` trains on; `model` stands for the network fitted to them
    var inputs, targets := BuildTrainingSet(historicalPrices, WindowSize);
    var predictions := PredictPrices(model, historicalPrices, WindowSize, FutureDays);
    result := HookSummary(asset, today, d, historicalPrices, predictions);
  }

  /**
   * The hook's forecast is fed back through a window of the last ten values: each predicted
   * day is the model applied to the ten values before it.
   */
  lemma HookForecastWindows(currentPrice: real, model: Predictor, d: Draws)
    requires ValidDraws(d)
    ensures var history := HookHistory(currentPrice, d);
      var f := Forecast(model, LastWindow(history, WindowSize), FutureDays);
      && LastWindow(history, WindowSize) == history[HistoryDays - WindowSize..]
      && forall i :: 0 <= i < FutureDays ==> f[i] == model((history + f)[HistoryDays - WindowSize + i..HistoryDays + i])
  {
    var history := HookHistory(currentPrice, d);
    var w := LastWindow(history, WindowSize);
    var f := Forecast(model, w, FutureDays);
    ForecastWindows(model, w, FutureDays);
    forall i | 0 <= i < FutureDays
      ensures f[i] == model((history + f)[HistoryDays - WindowSize + i..HistoryDays + i])
    {
      assert FedBack(model, w, f, i);
      assert (w + f)[i..i + WindowSize] == (history + f)[HistoryDays - WindowSize + i..HistoryDays + i];
    }
  }

  /**
   * The hook's series: 37 dates, thirty prices then seven nulls in `actual`, thirty nulls
   * then the seven rounded forecasts in the other series.
   */
  lemma HookLayout(today: int, volatilityValue: real, history: seq<real>, predictions: seq<real>)
    requires |history| == HistoryDays && |predictions| == FutureDays
    ensures var s := HookSeries(today, volatilityValue, history, predictions);
      && s.dates == HookDates(today)
      && |s.dates| == |s.actual| == |s.predicted| == |s.upperBound| == |s.lowerBound| == 37
      && (forall i :: 0 <= i < 30 ==>
            s.actual[i] == Some(history[i]) && s.predicted[i].None? && s.upperBound[i].None? && s.lowerBound[i].None?)
      && (forall i :: 30 <= i < 37 ==>
            s.actual[i].None? && s.predicted[i] == Some(ToCents(predictions[i - 30]))
            && s.upperBound[i].Some? && s.lowerBound[i].Some?)
  {
  }

  /** Every non-negative forecast of the hook stays inside its band after rounding. */
  lemma HookKeepsBand(today: int, volatilityValue: real, history: seq<real>, predictions: seq<real>)
    requires Unit(volatilityValue)
    requires |history| == HistoryDays && |predictions| == FutureDays
    ensures var s := HookSeries(today, volatilityValue, history, predictions);
      forall i :: 30 <= i < 37 && predictions[i - 30] >= 0.0 ==>
        s.lowerBound[i].value <= s.predicted[i].value <= s.upperBound[i].value
  {
    var b := BoundsFor(predictions, BoundMultiplier(volatilityValue));
    AssembleKeepsBand(HookDates(today), history, predictions, b.upper, b.lower);
  }

  /** The yield, rounded to cents, stays between 5 and 15 percent. */
  lemma RoundedYieldRange(draw: real)
    requires Unit(draw)
    ensures 5.0 <= ToCents(YieldValue(draw)) <= 15.0
  {
    var y := YieldValue(draw);
    CentsMonotone(5.0, y);
    CentsMonotone(y, 15.0);
    CentsWhole(5);
    CentsWhole(15);
  }

  /** The gas fees, rounded to cents, stay between three and five times the gas base. */
  lemma RoundedGasRange(asset: string, draw: real)
    requires Unit(draw)
    ensures 3.0 * GasBase(asset) <= ToCents(GasFees(asset, draw)) <= 5.0 * GasBase(asset)
  {
    var g := GasFees(asset, draw);
    var base := GasBase(asset);
    CentsMonotone(3.0 * base, g);
    CentsMonotone(g, 5.0 * base);
    if asset == "Ethereum" {
      CentsWhole(150);
      CentsWhole(250);
    } else {
      CentsWhole(75);
      CentsWhole(125);
    }
  }

  /** Rounded to cents, the break-even of a price of at least one cent is at least that price rounded. */
  lemma RoundedBreakEven(entryPrice: real)
    requires entryPrice >= PriceFloor
    ensures ToCents(BreakEven(entryPrice)) >= ToCents(entryPrice) >= PriceFloor
  {
    CentsMonotone(entryPrice, BreakEven(entryPrice));
    CentsKeepCent(entryPrice);
  }

  /**
   * The scalar fields of a run: confidence between 70 and 100, yield between 5 and 15,
   * gas fees between three and five times the gas base, and a break-even at or above the
   * last simulated price.
   */
  lemma HookRanges(asset: string, today: int, d: Draws, history: seq<real>, predictions: seq<real>)
    requires ValidDraws(d)
    requires |history| == HistoryDays && history[HistoryDays - 1] >= PriceFloor && |predictions| == FutureDays
    ensures var r := HookSummary(asset, today, d, history, predictions);
      && 70 <= r.confidence <= 100
      && 5.0 <= r.yieldValue <= 15.0
      && 3.0 * GasBase(asset) <= r.gasFees <= 5.0 * GasBase(asset)
      && r.breakEvenPoint >= ToCents(history[HistoryDays - 1]) >= PriceFloor
  {
    var r := HookSummary(asset, today, d, history, predictions);
    var last := history[HistoryDays - 1];
    assert r.confidence == HookConfidence(d.confidenceDraw);
    assert r.yieldValue == ToCents(YieldValue(d.yieldDraw)) by {
      RoundedYieldRange(d.yieldDraw);
    }
    RoundedYieldRange(d.yieldDraw);
    RoundedGasRange(asset, d.gasDraw);
    RoundedBreakEven(last);
    assert r.gasFees == ToCents(GasFees(asset, d.gasDraw));
    assert r.breakEvenPoint == ToCents(BreakEven(last));
  }

  // ---------------------------------------------------------------- the hook

  /** The body the hook posts to `/api/simulations`. */
  datatype SimulationPost = SimulationPost(
    userId: int,
    name: string,
    result: HookResult)

  function PostOf(result: HookResult): SimulationPost
  {
    SimulationPost(1, result.asset + " Price Prediction", result)
  }

  /** `!address`: no wallet, or an empty address. */
  predicate Connected(address: Option<string>)
  {
    address.Some? && address.value != ""
  }

  /** The hook's state and the requests it has sent. */
  class SimulationRunner {
    var isRunning: bool
    /** Assets whose market data was requested, in order. */
    var marketRequests: seq<string>
    /** Simulations posted to the server, in order. */
    var posted: seq<SimulationPost>

    constructor()
      ensures !isRunning && marketRequests == [] && posted == []
    {
      isRunning := false;
      marketRequests := [];
      posted := [];
    }

    /**
     * `runSimulation(asset)`. `address` is the connected wallet; `marketPrice` is the
     * fetched price, None when the fetch failed; `saveAccepted` says whether the server
     * accepted the post. Any failure ends in null, and `isRunning` is cleared at the end.
     */
    method RunSimulation(asset: string, address: Option<string>, marketPrice: Option<real>,
                         saveAccepted: bool, today: int, model: Predictor, d: Draws)
      returns (r: Option<HookResult>)
      requires ValidDraws(d)
      modifies this`isRunning, this`marketRequests, this`posted
      ensures isRunning == (if Connected(address) then false else old(isRunning))
      ensures marketRequests == (if Connected(address) then old(marketRequests) + [asset] else old(marketRequests))
      ensures posted == (if Connected(address) && marketPrice.Some?
                         then old(posted) + [PostOf(HookRun(asset, marketPrice.value, today, model, d))]
                         else old(posted))
      ensures r == (if Connected(address) && marketPrice.Some? && saveAccepted
                    then Some(HookRun(asset, marketPrice.value, today, model, d))
                    else None)
    {
      if !Connected(address) {
        return None;
      }
      isRunning := true;
      marketRequests := marketRequests + [asset];
      if marketPrice.None? {
        isRunning := false;
        return None;
      }
      var result := ComputeSimulation(asset, marketPrice.value, today, model, d);
      posted := posted + [PostOf(result)];
      isRunning := false;
      r := if saveAccepted then Some(result) else None;
    }
  }
}
