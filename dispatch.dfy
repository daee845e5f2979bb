/**
 * `CrossPlatformProphet.fit_and_predict`: Prophet when it is available and
 * its run completes, the fallback model otherwise (unavailable, timed out
 * or raised); a fallback result is always reported as unsuccessful.
 */
module Dispatch {
  import opened Wrappers
  import opened Series
  import opened Fallback

  /**
   * How the Prophet operation ended: it completed with a forecast, the
   * watchdog fired (the alarm on Unix, the thread join on Windows), or it
   * raised.
   */
  datatype ProphetRun = Completed(forecast: seq<ForecastRow>) | TimedOut | Raised(message: string)

  /** `_fallback_fit_and_predict`: a fresh fallback model's result, marked unsuccessful. */
  function FallbackOutcome(df: seq<Observation>, periods: int, learner: Learner): (o: ForecastOutcome)
    ensures !o.success
    ensures o.forecast == OutcomeOf(FallbackForecast(df, periods, learner)).forecast
  {
    OutcomeOf(FallbackForecast(df, periods, learner)).(success := false)
  }

  /** The result of `fit_and_predict`. */
  function DispatchOf(prophetAvailable: bool, run: ProphetRun, df: seq<Observation>, periods: int,
                      learner: Learner): ForecastOutcome
  {
    if prophetAvailable && run.Completed? then ForecastOutcome(Some(run.forecast), ProphetModel, true, None)
    else FallbackOutcome(df, periods, learner)
  }

  /**
   * Only a completed Prophet run reports success; every other path is the
   * fallback's result with `success` false, even when the fallback produced
   * a forecast.
   */
  lemma SuccessOnlyFromProphet(prophetAvailable: bool, run: ProphetRun, df: seq<Observation>, periods: int,
                               learner: Learner)
    ensures var r := DispatchOf(prophetAvailable, run, df, periods, learner);
            (r.success <==> prophetAvailable && run.Completed?)
            && (r.success ==> r.forecast == Some(run.forecast) && r.model == ProphetModel)
            && (!r.success ==> r.forecast == OutcomeOf(FallbackForecast(df, periods, learner)).forecast)
            && (!r.success && FallbackForecast(df, periods, learner).Ok? ==>
                  r.forecast.Some? && r.model == FallbackModel)
  {
  }

  class CrossPlatformProphet {
    var isWindows: bool
    var prophetAvailable: bool
    /** Set when the Windows watchdog gave up on a Prophet run. */
    var timeoutOccurred: bool

    /** The availability probe's verdict is an input. */
    constructor(isWindows: bool, prophetAvailable: bool)
      ensures this.isWindows == isWindows && this.prophetAvailable == prophetAvailable && !timeoutOccurred
    {
      this.isWindows := isWindows;
      this.prophetAvailable := prophetAvailable;
      timeoutOccurred := false;
    }

    /** `_fallback_fit_and_predict`: a new fallback model, its result marked unsuccessful. */
    method FallbackFitAndPredict(df: seq<Observation>, periods: int, learner: Learner) returns (r: ForecastOutcome)
      ensures r == FallbackOutcome(df, periods, learner)
    {
      var model := new FallbackForecastModel();
      r := model.FitAndPredict(df, periods, learner);
      r := r.(success := false);
    }

    /** `fit_and_predict` on the outcome of the Prophet operation. */
    method FitAndPredict(df: seq<Observation>, periods: int, run: ProphetRun, learner: Learner)
      returns (r: ForecastOutcome)
      modifies this
      ensures r == DispatchOf(prophetAvailable, run, df, periods, learner)
      ensures timeoutOccurred == (old(timeoutOccurred) || (prophetAvailable && isWindows && run.TimedOut?))
      ensures isWindows == old(isWindows) && prophetAvailable == old(prophetAvailable)
    {
      if !prophetAvailable {
        r := FallbackFitAndPredict(df, periods, learner);
        return;
      }
      if isWindows {
        match run
        case TimedOut =>
          timeoutOccurred := true;
          r := FallbackFitAndPredict(df, periods, learner);
        case Raised(_) =>
          r := FallbackFitAndPredict(df, periods, learner);
        case Completed(forecast) =>
          r := ForecastOutcome(Some(forecast), ProphetModel, true, None);
      } else {
        match run
        case TimedOut =>
          r := FallbackFitAndPredict(df, periods, learner);
        case Raised(_) =>
          r := FallbackFitAndPredict(df, periods, learner);
        case Completed(forecast) =>
          r := ForecastOutcome(Some(forecast), ProphetModel, true, None);
      }
    }
  }
}
