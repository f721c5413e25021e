/** The Sales Forecasting page: the daily sales series and, after it, a seven-day
    forecast indexed by the seven days that follow the last day of the series.
    The ARIMA fit itself is outside the model: its outcome is a parameter. */
module Forecast {
  import opened Transactions
  import opened Kpi

  /** `forecast_steps = 7` */
  const ForecastSteps: nat := 7

  /** The seven values `forecast(steps=7)` returns. */
  type ForecastValues = s: seq<real> | |s| == ForecastSteps witness seq(ForecastSteps, _ => 0.0)

  /** What `ARIMA(ts, order=(1,1,1)).fit().forecast(steps=7)` gave: the forecast
      values, or the message of the exception it raised. */
  datatype FitOutcome = Fitted(forecast: ForecastValues) | FitFailed(cause: string)

  /** The page's output: the historical series and the forecast series. */
  datatype ForecastView = ForecastView(history: map<Day, real>, index: seq<Day>, values: ForecastValues)

  /** `pd.date_range(last + 1 day, periods=7, freq="D")` */
  function ForecastIndex(last: Day): (idx: seq<Day>)
    ensures |idx| == ForecastSteps
    ensures forall i :: 0 <= i < |idx| ==> idx[i] == last + 1 + i
  {
    seq(ForecastSteps, i => last + 1 + i)
  }

  /** The forecast days are consecutive and all come after `last`. */
  lemma ForecastIndexFollows(last: Day)
    ensures ForecastIndex(last)[0] == last + 1
    ensures forall i :: 0 < i < ForecastSteps ==> ForecastIndex(last)[i] == ForecastIndex(last)[i - 1] + 1
    ensures forall d :: d in ForecastIndex(last) ==> last < d <= last + ForecastSteps
  {
  }

  /** `ts.index[-1]`: the series is sorted by date, so its last index is the latest
      present date of the table, and there is none exactly when the series is empty. */
  lemma LastIndex(rows: seq<Transaction>)
    ensures MaxDate(rows).None? <==> DailySales(rows) == map[]
    ensures MaxDate(rows).Some? ==> MaxDate(rows).value in DailySales(rows)
    ensures MaxDate(rows).Some? ==> forall d :: d in DailySales(rows) ==> d <= MaxDate(rows).value
  {
    var ts := DailySales(rows);
    if MaxDate(rows).Some? {
      var t :| t in rows && t.date == MaxDate(rows);
      assert MaxDate(rows).value in ts;
    }
  }

  /** The Sales Forecasting page. Without a Date column it only warns; a failing
      fit and an empty series (no `ts.index[-1]`) end in the page's `except` branch.
      Otherwise the seven values are shown against the seven days after the last
      day of the series. */
  function ForecastPage(t: Table, fit: FitOutcome): (r: Result<ForecastView, AnalysisError>)
    ensures DateColumn !in t.columns ==> r == Err(MissingColumns(SalesForecast, {DateColumn}))
    ensures r.Ok? <==> DateColumn in t.columns && fit.Fitted? && exists row :: row in t.rows && row.date.Some?
    ensures DateColumn in t.columns && r.Err? ==> r.error.ForecastError?
    ensures fit.FitFailed? && DateColumn in t.columns ==> r == Err(ForecastError(fit.cause))
    ensures r.Ok? ==> r.value.history == DailySales(t.rows) && r.value.values == fit.forecast
    ensures r.Ok? ==> MaxDate(t.rows).Some? && r.value.index == ForecastIndex(MaxDate(t.rows).value)
  {
    match Gate(t.columns, SalesForecast)
    case Some(e) =>
      assert e.missing == Required(SalesForecast) - t.columns == {DateColumn};
      Err(e)
    case None =>
      var ts := DailySales(t.rows);
      match fit
      case FitFailed(cause) => Err(ForecastError(cause))
      case Fitted(values) =>
        match MaxDate(t.rows)
        case None => Err(ForecastError("index -1 is out of bounds for axis 0 with size 0"))
        case Some(last) => Ok(ForecastView(ts, ForecastIndex(last), values))
  }

  /** With a Date column, a date in the table and seven fitted values, the page
      shows the daily series and the seven days after its last day. */
  lemma ForecastAfterLastDay(t: Table, values: ForecastValues, last: Day)
    requires DateColumn in t.columns
    requires MaxDate(t.rows) == Some(last)
    ensures ForecastPage(t, Fitted(values)) == Ok(ForecastView(DailySales(t.rows), ForecastIndex(last), values))
  {
    var u :| u in t.rows && u.date == Some(last);
  }

  /** The forecast starts the day after the last day of the plotted series and
      lies wholly after it. */
  lemma ForecastFollowsHistory(t: Table, fit: FitOutcome)
    ensures var r := ForecastPage(t, fit);
      r.Ok? ==> |r.value.index| == ForecastSteps && r.value.index[0] - 1 in r.value.history
    ensures var r := ForecastPage(t, fit);
      r.Ok? ==> forall d, i :: d in r.value.history && 0 <= i < |r.value.index| ==> d < r.value.index[i]
  {
    LastIndex(t.rows);
  }
}
