/**
 * `FallbackForecastModel`: a trend regression on calendar features plus a
 * seasonal regression on the residuals, guarded by `is_fitted`, forecasting
 * the month starts after the last observed date with a fixed band of
 * ±20% around the prediction. The two scikit-learn regressions are given
 * as a learner that either returns a fitted predictor or raises.
 */
module Fallback {
  import opened Wrappers
  import opened Calendar
  import opened Series

  /** The columns `_prepare_features` adds: `time_index`, `month`, `year`, `quarter`. */
  datatype Features = Features(timeIndex: nat, month: int, year: int, quarter: int)

  /** `_prepare_features` on the `ds` column: the features of each row, numbered in row order. */
  function FeaturesOf(ds: seq<Date>): (fs: seq<Features>)
    ensures |fs| == |ds|
    ensures forall i :: 0 <= i < |ds| ==> fs[i].timeIndex == i && fs[i].month == ds[i].month && fs[i].year == ds[i].year
    ensures forall i :: 0 <= i < |ds| ==> fs[i].quarter == Quarter(ds[i].month)
  {
    seq(|ds|, i requires 0 <= i < |ds| => Features(i, ds[i].month, ds[i].year, Quarter(ds[i].month)))
  }

  /** The seasonal regression's inputs: `month` and `quarter`. */
  function SeasonalInputs(fs: seq<Features>): (xs: seq<(int, int)>)
    ensures |xs| == |fs| && forall i :: 0 <= i < |fs| ==> xs[i] == (fs[i].month, fs[i].quarter)
  {
    seq(|fs|, i requires 0 <= i < |fs| => (fs[i].month, fs[i].quarter))
  }

  /**
   * Calendar features of real dates: the month is 1..12, the quarter 1..4
   * and the quarter holds the month.
   */
  lemma FeatureRanges(ds: seq<Date>)
    requires forall i :: 0 <= i < |ds| ==> ValidDate(ds[i])
    ensures forall i :: 0 <= i < |ds| ==>
              var f := FeaturesOf(ds)[i];
              1 <= f.month <= 12 && 1 <= f.quarter <= 4 && 3 * (f.quarter - 1) < f.month <= 3 * f.quarter
  {
    forall i | 0 <= i < |ds|
      ensures var f := FeaturesOf(ds)[i]; 1 <= f.quarter <= 4 && 3 * (f.quarter - 1) < f.month <= 3 * f.quarter
    {
      var m := ds[i].month;
      assert Quarter(m) == (m - 1) / 3 + 1;
      assert 3 * ((m - 1) / 3) <= m - 1 < 3 * ((m - 1) / 3) + 3;
    }
  }

  /**
   * The features of appended rows continue the history's numbering at its
   * length and are otherwise those of the rows on their own.
   */
  lemma FeaturesContinue(history: seq<Date>, future: seq<Date>)
    ensures forall k :: 0 <= k < |future| ==>
              FeaturesOf(history + future)[|history| + k] == FeaturesOf(future)[k].(timeIndex := |history| + k)
  {
    forall k | 0 <= k < |future|
      ensures FeaturesOf(history + future)[|history| + k] == FeaturesOf(future)[k].(timeIndex := |history| + k)
    {
      assert (history + future)[|history| + k] == future[k];
    }
  }

  /** A fitted trend regression (polynomial of degree 2 on the four features, then linear). */
  datatype TrendModel = TrendModel(predict: Features -> real)

  /** A fitted seasonal regression on `(month, quarter)`. */
  datatype SeasonalModel = SeasonalModel(predict: ((int, int)) -> real)

  /** A model field: never set, set to a regression not yet fitted, or fitted. */
  datatype Slot<M> = Empty | Unfitted | Fitted(model: M)

  /** The scikit-learn fits: a fitted predictor, or the text of the error raised. */
  datatype Learner = Learner(fitTrend: (seq<Features>, seq<real>) -> Result<TrendModel, string>,
                             fitSeasonal: (seq<(int, int)>, seq<real>) -> Result<SeasonalModel, string>)

  /** Why a step raised. */
  datatype Failure =
    | NotFitted            // the `is_fitted` guard: "Model must be fitted before making predictions"
    | MissingFrame         // `self.df` read before `fit_and_predict` set it
    | EmptyFrame           // the maximum of no dates is `NaT`, which `date_range` refuses
    | NegativePeriods      // `date_range` refuses `periods + 1 < 0`
    | UnfittedRegressor    // a regression replaced by a failed re-fit
    | LearnerError(message: string)

  const NotFittedMessage: string := "Model must be fitted before making predictions"

  function Dates(df: seq<Observation>): (ds: seq<Date>)
    ensures |ds| == |df| && forall i :: 0 <= i < |df| ==> ds[i] == df[i].ds
  {
    seq(|df|, i requires 0 <= i < |df| => df[i].ds)
  }

  function Values(df: seq<Observation>): (ys: seq<real>)
    ensures |ys| == |df| && forall i :: 0 <= i < |df| ==> ys[i] == df[i].y
  {
    seq(|df|, i requires 0 <= i < |df| => df[i].y)
  }

  /** What the trend leaves unexplained: `y - trend_predictions`. */
  function Residuals(ys: seq<real>, fs: seq<Features>, trend: TrendModel): (rs: seq<real>)
    requires |ys| == |fs|
    ensures |rs| == |ys| && forall i :: 0 <= i < |ys| ==> rs[i] == ys[i] - trend.predict(fs[i])
  {
    seq(|ys|, i requires 0 <= i < |ys| => ys[i] - trend.predict(fs[i]))
  }

  /** `fit`: the trend on the features, then the seasonal model on the residuals. */
  function FitOf(df: seq<Observation>, learner: Learner): Result<(TrendModel, SeasonalModel), Failure> {
    var fs := FeaturesOf(Dates(df));
    match learner.fitTrend(fs, Values(df))
    case Err(e) => Err(LearnerError(e))
    case Ok(trend) =>
      match learner.fitSeasonal(SeasonalInputs(fs), Residuals(Values(df), fs, trend))
      case Err(e) => Err(LearnerError(e))
      case Ok(seasonal) => Ok((trend, seasonal))
  }

  /**
   * What `fit` leaves in `trend_model`: the fitted trend once its fit
   * succeeded (even if the seasonal fit then raised), otherwise the fresh,
   * unfitted regression.
   */
  function TrendSlotAfterFit(df: seq<Observation>, learner: Learner): Slot<TrendModel> {
    match learner.fitTrend(FeaturesOf(Dates(df)), Values(df))
    case Ok(trend) => Fitted(trend)
    case Err(_) => Unfitted
  }

  /** Calendar order of dates. */
  predicate DateLe(a: Date, b: Date) {
    a.year < b.year || (a.year == b.year && (a.month < b.month || (a.month == b.month && a.day <= b.day)))
  }

  /** `df['ds'].max()`. */
  function LatestDate(ds: seq<Date>): (d: Date)
    requires |ds| > 0
    ensures d in ds && forall i :: 0 <= i < |ds| ==> DateLe(ds[i], d)
  {
    if |ds| == 1 then ds[0]
    else
      var rest := LatestDate(ds[1..]);
      assert forall i :: 1 <= i < |ds| ==> ds[i] == ds[1..][i - 1];
      if DateLe(rest, ds[0]) then ds[0] else rest
  }

  /**
   * `pd.date_range(start=last, periods=periods + 1, freq='MS')[1:]`: the
   * range starts at the first month start on or after `last`, and that
   * start is dropped.
   */
  function FutureDates(last: Date, periods: nat): seq<Date> {
    var first := Index(MonthOf(last)) + (if last.day == 1 then 0 else 1);
    seq(periods, k requires 0 <= k < periods => FirstDay(FromIndex(first + 1 + k)))
  }

  /**
   * The future dates are month starts, one month apart; after the 1st of a
   * month they begin with the next month, after any other day they begin
   * one month later, so the month following `last` is skipped.
   */
  lemma FutureDatesFacts(last: Date, periods: nat)
    requires 1 <= last.month <= 12
    ensures |FutureDates(last, periods)| == periods
    ensures forall k :: 0 <= k < periods ==>
              var d := FutureDates(last, periods)[k];
              d.day == 1 && 1 <= d.month <= 12
              && Index(MonthOf(d)) == Index(MonthOf(last)) + k + (if last.day == 1 then 1 else 2)
    ensures last.day != 1 ==> FirstDay(FromIndex(Index(MonthOf(last)) + 1)) !in FutureDates(last, periods)
  {
    var fd := FutureDates(last, periods);
    var base := Index(MonthOf(last));
    var first := base + (if last.day == 1 then 0 else 1);
    forall k | 0 <= k < periods
      ensures fd[k].day == 1 && 1 <= fd[k].month <= 12 && Index(MonthOf(fd[k])) == first + 1 + k
    {
      var m := FromIndex(first + 1 + k);
      assert fd[k] == FirstDay(m);
      assert MonthOf(FirstDay(m)) == m;
    }
    if last.day != 1 {
      var skipped := FirstDay(FromIndex(base + 1));
      assert Index(MonthOf(skipped)) == base + 1;
      assert forall k :: 0 <= k < periods ==> Index(MonthOf(fd[k])) != Index(MonthOf(skipped));
    }
  }

  /** The number of future months: `date_range` with `periods + 1` entries, less the first. */
  function Horizon(periods: int): nat {
    if periods < 0 then 0 else periods
  }

  /** `make_future_dataframe(periods, freq='M')` on the stored frame, past the `is_fitted` guard. */
  function FutureFrame(history: Option<seq<Observation>>, periods: int, includeHistory: bool): Result<seq<Date>, Failure> {
    if history.None? then Err(MissingFrame)
    else if |history.value| == 0 then Err(EmptyFrame)
    else if periods + 1 < 0 then Err(NegativePeriods)
    else
      var future := FutureDates(LatestDate(Dates(history.value)), Horizon(periods));
      Ok(if includeHistory then Dates(history.value) + future else future)
  }

  /** One forecast row: the prediction and its band of 0.8 and 1.2 times it. */
  function BandRow(ds: Date, yhat: real): (r: ForecastRow)
    ensures r.ds == ds && r.yhat == yhat
    ensures r.yhatLower == 0.8 * yhat && r.yhatUpper == 1.2 * yhat
  {
    ForecastRow(ds, yhat, yhat * 0.8, yhat * 1.2)
  }

  /** The band contains the prediction exactly when the prediction is not negative. */
  lemma BandOrdered(ds: Date, yhat: real)
    ensures var r := BandRow(ds, yhat);
            (r.yhatLower <= r.yhat <= r.yhatUpper) <==> yhat >= 0.0
  {
    var r := BandRow(ds, yhat);
    if yhat < 0.0 {
      assert r.yhatLower - r.yhat == -0.2 * yhat;
    }
  }

  /** `predict` with fitted regressions: trend plus seasonal component on each row's features. */
  function Predicted(ds: seq<Date>, trend: TrendModel, seasonal: SeasonalModel): (rows: seq<ForecastRow>)
    ensures |rows| == |ds|
    ensures forall i :: 0 <= i < |ds| ==>
              var f := FeaturesOf(ds)[i];
              rows[i] == BandRow(ds[i], trend.predict(f) + seasonal.predict((f.month, f.quarter)))
  {
    var fs := FeaturesOf(ds);
    seq(|ds|, i requires 0 <= i < |ds| =>
      BandRow(ds[i], trend.predict(fs[i]) + seasonal.predict((fs[i].month, fs[i].quarter))))
  }

  /** The forecast `fit_and_predict` computes: fit, the history and future dates, predict. */
  function FallbackForecast(df: seq<Observation>, periods: int, learner: Learner): Result<seq<ForecastRow>, Failure> {
    match FitOf(df, learner)
    case Err(e) => Err(e)
    case Ok(models) =>
      match FutureFrame(Some(df), periods, true)
      case Err(e) => Err(e)
      case Ok(ds) => Ok(Predicted(ds, models.0, models.1))
  }

  /** Where a result's model came from. */
  datatype ModelKind = ProphetModel | FallbackModel | NoModel

  /** The result dict: `forecast`, `model`, `success` and, on failure, `error`. */
  datatype ForecastOutcome = ForecastOutcome(forecast: Option<seq<ForecastRow>>, model: ModelKind, success: bool,
                                             error: Option<Failure>)

  /** `fit_and_predict`'s dict for a forecast or a failure; it never raises. */
  function OutcomeOf(r: Result<seq<ForecastRow>, Failure>): (o: ForecastOutcome)
    ensures o.success <==> o.forecast.Some?
    ensures o.success <==> o.error.None?
    ensures o.success <==> o.model == FallbackModel
    ensures r.Ok? ==> o.forecast == Some(r.value)
    ensures r.Err? ==> o.error == Some(r.error)
  {
    match r
    case Ok(rows) => ForecastOutcome(Some(rows), FallbackModel, true, None)
    case Err(e) => ForecastOutcome(None, NoModel, false, Some(e))
  }

  /**
   * A successful fallback forecast covers the history and `periods` months
   * after it: the history's dates in order, then the future month starts,
   * each with its band.
   */
  lemma FallbackShape(df: seq<Observation>, periods: int, learner: Learner)
    requires FallbackForecast(df, periods, learner).Ok?
    ensures var rows := FallbackForecast(df, periods, learner).value;
            periods >= -1 && |df| > 0
            && |rows| == |df| + Horizon(periods)
            && (forall i :: 0 <= i < |df| ==> rows[i].ds == df[i].ds)
            && (forall i :: |df| <= i < |rows| ==>
                  rows[i].ds == FutureDates(LatestDate(Dates(df)), Horizon(periods))[i - |df|])
            && forall i :: 0 <= i < |rows| ==>
                 rows[i].yhatLower == 0.8 * rows[i].yhat && rows[i].yhatUpper == 1.2 * rows[i].yhat
  {
    var models := FitOf(df, learner).value;
    var ds := FutureFrame(Some(df), periods, true).value;
    var future := FutureDates(LatestDate(Dates(df)), Horizon(periods));
    assert ds == Dates(df) + future;
    var rows := Predicted(ds, models.0, models.1);
    forall i | |df| <= i < |rows| ensures rows[i].ds == future[i - |df|] {
      assert ds[i] == future[i - |df|];
    }
  }

  class FallbackForecastModel {
    var isFitted: bool
    var trendModel: Slot<TrendModel>
    var seasonalModel: Slot<SeasonalModel>
    /** The frame `fit_and_predict` stored; `None` before it ran. */
    var df: Option<seq<Observation>>

    constructor()
      ensures !isFitted && trendModel == Empty && seasonalModel == Empty && df == None
    {
      isFitted := false;
      trendModel := Empty;
      seasonalModel := Empty;
      df := None;
    }

    /**
     * `fit`: both regressions are replaced by unfitted ones, then fitted in
     * turn; `is_fitted` is set only once both have been fitted.
     */
    method Fit(data: seq<Observation>, learner: Learner) returns (r: Result<(), Failure>)
      modifies this
      ensures df == old(df)
      ensures r.Ok? <==> FitOf(data, learner).Ok?
      ensures r.Err? ==> r.error == FitOf(data, learner).error
      ensures FitOf(data, learner).Ok? ==>
                isFitted && trendModel == Fitted(FitOf(data, learner).value.0)
                && seasonalModel == Fitted(FitOf(data, learner).value.1)
      ensures FitOf(data, learner).Err? ==>
                isFitted == old(isFitted) && seasonalModel == Unfitted
                && trendModel == TrendSlotAfterFit(data, learner)
    {
      var fs := FeaturesOf(Dates(data));
      trendModel := Unfitted;
      seasonalModel := Unfitted;
      var trend := learner.fitTrend(fs, Values(data));
      if trend.Err? {
        return Err(LearnerError(trend.error));
      }
      trendModel := Fitted(trend.value);
      var seasonal := learner.fitSeasonal(SeasonalInputs(fs), Residuals(Values(data), fs, trend.value));
      if seasonal.Err? {
        return Err(LearnerError(seasonal.error));
      }
      seasonalModel := Fitted(seasonal.value);
      isFitted := true;
      return Ok(());
    }

    /** `make_future_dataframe`: refused until the model is fitted. */
    method MakeFutureDataframe(periods: int, includeHistory: bool) returns (r: Result<seq<Date>, Failure>)
      ensures !isFitted ==> r == Err(NotFitted)
      ensures isFitted ==> r == FutureFrame(df, periods, includeHistory)
    {
      if !isFitted {
        return Err(NotFitted);
      }
      r := FutureFrame(df, periods, includeHistory);
    }

    /** `predict`: refused until the model is fitted; otherwise trend plus seasonal with the band. */
    method Predict(ds: seq<Date>) returns (r: Result<seq<ForecastRow>, Failure>)
      ensures !isFitted ==> r == Err(NotFitted)
      ensures isFitted && trendModel.Fitted? && seasonalModel.Fitted? ==>
                r == Ok(Predicted(ds, trendModel.model, seasonalModel.model))
      ensures isFitted && !(trendModel.Fitted? && seasonalModel.Fitted?) ==> r == Err(UnfittedRegressor)
    {
      if !isFitted {
        return Err(NotFitted);
      }
      if !(trendModel.Fitted? && seasonalModel.Fitted?) {
        return Err(UnfittedRegressor);
      }
      r := Ok(Predicted(ds, trendModel.model, seasonalModel.model));
    }

    /** `fit_and_predict`: store the frame, fit, extend, predict; any failure becomes the error dict. */
    method FitAndPredict(data: seq<Observation>, periods: int, learner: Learner) returns (r: ForecastOutcome)
      modifies this
      ensures df == Some(data)
      ensures r == OutcomeOf(FallbackForecast(data, periods, learner))
      ensures FitOf(data, learner).Ok? ==>
                isFitted && trendModel == Fitted(FitOf(data, learner).value.0)
                && seasonalModel == Fitted(FitOf(data, learner).value.1)
      ensures FitOf(data, learner).Err? ==>
                isFitted == old(isFitted) && seasonalModel == Unfitted
                && trendModel == TrendSlotAfterFit(data, learner)
    {
      df := Some(data);
      var fitted := Fit(data, learner);
      if fitted.Err? {
        return OutcomeOf(Err(fitted.error));
      }
      var future := MakeFutureDataframe(periods, true);
      if future.Err? {
        return OutcomeOf(Err(future.error));
      }
      var forecast := Predict(future.value);
      r := OutcomeOf(forecast);
    }
  }
}
