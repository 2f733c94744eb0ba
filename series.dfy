/**
 * The `simulationData` blob stored with a simulation: five index-aligned series,
 * `null` where a value does not apply. Dates are day numbers (ISO text is not modelled).
 */
module Series {
  import opened Wrappers
  import opened JsNumber

  datatype SimulationData = SimulationData(
    dates: seq<int>,
    actual: seq<Option<real>>,
    predicted: seq<Option<real>>,
    upperBound: seq<Option<real>>,
    lowerBound: seq<Option<real>>)

  /** `Array(n).fill(null)`. */
  function Nulls(n: nat): seq<Option<real>>
  {
    seq(n, _ => None)
  }

  /** The values of xs, none of them null. */
  function Present(xs: seq<real>): seq<Option<real>>
  {
    seq(|xs|, i requires 0 <= i < |xs| => Some(xs[i]))
  }

  /** `xs.map(p => parseFloat(p.toFixed(2)))`. */
  function Cents(xs: seq<real>): seq<real>
  {
    seq(|xs|, i requires 0 <= i < |xs| => ToCents(xs[i]))
  }

  /**
   * The layout both simulation paths build: `actual` is the history followed by one null
   * per forecast day; `predicted` and the bounds are one null per history day followed by
   * the forecast rounded to cents.
   */
  function Assemble(dates: seq<int>, history: seq<real>, predictions: seq<real>,
                    upper: seq<real>, lower: seq<real>): (d: SimulationData)
    requires |upper| == |predictions| && |lower| == |predictions|
    ensures d.dates == dates
    ensures |d.actual| == |d.predicted| == |d.upperBound| == |d.lowerBound| == |history| + |predictions|
    ensures forall i :: 0 <= i < |history| ==>
      d.actual[i] == Some(history[i]) && d.predicted[i].None? && d.upperBound[i].None? && d.lowerBound[i].None?
    ensures forall i :: |history| <= i < |history| + |predictions| ==>
      && d.actual[i].None?
      && d.predicted[i] == Some(ToCents(predictions[i - |history|]))
      && d.upperBound[i] == Some(ToCents(upper[i - |history|]))
      && d.lowerBound[i] == Some(ToCents(lower[i - |history|]))
  {
    SimulationData(
      dates,
      Present(history) + Nulls(|predictions|),
      Nulls(|history|) + Present(Cents(predictions)),
      Nulls(|history|) + Present(Cents(upper)),
      Nulls(|history|) + Present(Cents(lower)))
  }

  /** Rounding to cents keeps inside its band every non-negative forecast that was inside it. */
  lemma AssembleKeepsBand(dates: seq<int>, history: seq<real>, predictions: seq<real>,
                          upper: seq<real>, lower: seq<real>)
    requires |upper| == |predictions| && |lower| == |predictions|
    requires forall j :: 0 <= j < |predictions| && predictions[j] >= 0.0 ==> lower[j] <= predictions[j] <= upper[j]
    ensures var d := Assemble(dates, history, predictions, upper, lower);
      forall i :: |history| <= i < |history| + |predictions| && predictions[i - |history|] >= 0.0 ==>
        d.lowerBound[i].value <= d.predicted[i].value <= d.upperBound[i].value
  {
    forall j | 0 <= j < |predictions| && predictions[j] >= 0.0
      ensures ToCents(lower[j]) <= ToCents(predictions[j]) <= ToCents(upper[j])
    {
      CentsMonotone(lower[j], predictions[j]);
      CentsMonotone(predictions[j], upper[j]);
    }
  }
}
