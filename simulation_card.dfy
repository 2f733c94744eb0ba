/**
 * The simulation card: the chart rows zipped from a simulation's aligned series, and the
 * "Prediction (7d)" percentage shown under the chart.
 */
module SimulationCard {
  import opened Wrappers
  import opened JsNumber
  import opened Series

  /** One chart row. A missing entry (`undefined`) and a stored `null` both show as no value. */
  datatype ChartRow = ChartRow(
    date: int,
    actual: Option<real>,
    predicted: Option<real>,
    upperBound: Option<real>,
    lowerBound: Option<real>)

  /** `xs[i]`: the entry, or no value past either end. */
  function At(xs: seq<Option<real>>, i: int): (r: Option<real>)
    ensures 0 <= i < |xs| ==> r == xs[i]
    ensures !(0 <= i < |xs|) ==> r.None?
  {
    if 0 <= i < |xs| then xs[i] else None
  }

  /** `formatChartData`: one row per date, taking index i of every series. */
  function FormatChartData(data: Option<SimulationData>): (rows: seq<ChartRow>)
  {
    match data
    case None => []
    case Some(d) =>
      seq(|d.dates|, i requires 0 <= i < |d.dates| =>
        ChartRow(d.dates[i], At(d.actual, i), At(d.predicted, i), At(d.upperBound, i), At(d.lowerBound, i)))
  }

  /**
   * No data gives no rows; otherwise there is one row per date, row i carries date i and
   * entry i of each series, and an entry missing from a shorter series shows as no value.
   */
  lemma ChartRows(data: Option<SimulationData>)
    ensures data.None? ==> FormatChartData(data) == []
    ensures data.Some? ==> |FormatChartData(data)| == |data.value.dates|
    ensures data.Some? ==> forall i :: 0 <= i < |data.value.dates| ==>
      var row := FormatChartData(data)[i];
      && row.date == data.value.dates[i]
      && (i < |data.value.actual| ==> row.actual == data.value.actual[i])
      && (i < |data.value.predicted| ==> row.predicted == data.value.predicted[i])
      && (i < |data.value.upperBound| ==> row.upperBound == data.value.upperBound[i])
      && (i < |data.value.lowerBound| ==> row.lowerBound == data.value.lowerBound[i])
      && (i >= |data.value.actual| ==> row.actual.None?)
  {
  }

  /**
   * On the layout both simulation paths store, the chart shows the history as the actual line
   * on its days and the forecast (rounded to cents) as the predicted line on the days after,
   * and never both on the same day.
   */
  lemma ChartOfAssembled(dates: seq<int>, history: seq<real>, predictions: seq<real>,
                         upper: seq<real>, lower: seq<real>)
    requires |upper| == |predictions| && |lower| == |predictions|
    requires |dates| == |history| + |predictions|
    ensures var rows := FormatChartData(Some(Assemble(dates, history, predictions, upper, lower)));
      && |rows| == |history| + |predictions|
      && (forall i :: 0 <= i < |history| ==> rows[i].actual == Some(history[i]) && rows[i].predicted.None?)
      && (forall i :: |history| <= i < |rows| ==>
            rows[i].actual.None? && rows[i].predicted == Some(ToCents(predictions[i - |history|])))
  {
  }

  // ---------------------------------------------------------------- the 7-day change

  /** `((prediction / base - 1) * 100).toFixed(1)`; no finite value when base is 0. */
  function PercentChange(prediction: real, base: real): Option<real>
  {
    if base == 0.0 then None else Some(ToTenths((prediction / base - 1.0) * 100.0))
  }

  /**
   * The percentage as written: it divides by the entry seven from the end of `actual`. No
   * value (NaN) when that entry is null or missing.
   */
  function PredictionChangeAsWritten(prediction: real, d: SimulationData): Option<real>
  {
    match At(d.actual, |d.actual| - 7)
    case None => None
    case Some(base) => PercentChange(prediction, base)
  }

  /**
   * With a forecast of seven days or more, the entry seven from the end of `actual` is one of
   * the trailing nulls, so the percentage as written is never a number. The card's own data,
   * 30 days of history and a 7-day forecast, is such a layout.
   */
  lemma PredictionChangeAsWrittenIsNaN(prediction: real, dates: seq<int>, history: seq<real>,
                                       predictions: seq<real>, upper: seq<real>, lower: seq<real>)
    requires |upper| == |predictions| && |lower| == |predictions| && |predictions| >= 7
    ensures PredictionChangeAsWritten(prediction, Assemble(dates, history, predictions, upper, lower)).None?
  {
    var d := Assemble(dates, history, predictions, upper, lower);
    assert |history| <= |d.actual| - 7;
  }

  /** The index of the last non-null entry. */
  function LastPresent(xs: seq<Option<real>>): (r: Option<nat>)
    ensures r.Some? ==> r.value < |xs| && xs[r.value].Some? && forall j :: r.value < j < |xs| ==> xs[j].None?
    ensures r.None? ==> forall j :: 0 <= j < |xs| ==> xs[j].None?
    decreases |xs|
  {
    if xs == [] then None
    else if xs[|xs| - 1].Some? then Some(|xs| - 1)
    else LastPresent(xs[..|xs| - 1])
  }

  /** The percentage against the last actual price, the one the forecast starts from. */
  function PredictionChange(prediction: real, d: SimulationData): Option<real>
  {
    match LastPresent(d.actual)
    case None => None
    case Some(i) => PercentChange(prediction, d.actual[i].value)
  }

  /**
   * On the stored layout, the corrected percentage compares the prediction with the last
   * historical price.
   */
  lemma PredictionChangeUsesLastPrice(prediction: real, dates: seq<int>, history: seq<real>,
                                      predictions: seq<real>, upper: seq<real>, lower: seq<real>)
    requires |upper| == |predictions| && |lower| == |predictions| && |history| >= 1
    requires history[|history| - 1] != 0.0
    ensures PredictionChange(prediction, Assemble(dates, history, predictions, upper, lower))
         == Some(ToTenths((prediction / history[|history| - 1] - 1.0) * 100.0))
  {
    var d := Assemble(dates, history, predictions, upper, lower);
    var last := LastPresent(d.actual);
    assert d.actual[|history| - 1].Some?;
    assert last.Some? && last.value == |history| - 1;
  }
}
