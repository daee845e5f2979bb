/**
 * The `ForecastService` entry points `generate_forecast_from_csv` and
 * `generate_forecast_from_db`: both tables are prepared from one frame, the
 * leading companies and states are forecast, and the two dashboard payloads
 * are combined; the company table is kept on the service.
 */
module Service {
  import opened Wrappers
  import opened Calendar
  import opened Timeline
  import opened Series
  import opened Aggregation
  import opened Ranking
  import opened Report
  import opened JsonData

  /** A loaded frame: its column names and its rows. */
  datatype Frame = Frame(columns: set<string>, records: seq<SourceRecord>)

  /** `df.empty`: no rows or no columns. */
  predicate FrameEmpty(f: Frame) {
    |f.records| == 0 || f.columns == {}
  }

  /** The columns a preparation reads; a missing one raises and the preparation returns `None`. */
  function RequiredColumns(key: GroupKey): set<string> {
    match key
    case ByCompany => {DateColumn, NameColumn, AmountColumn}
    case ByState => {DateColumn, StateColumn, AmountColumn}
  }

  /**
   * A preparation on a frame: `None` when a column is missing or a present
   * date does not parse; a missing date only drops its record.
   */
  function PrepareFrame(f: Frame, key: GroupKey, parse: string -> Option<Date>): (r: Option<Table>)
    ensures r.Some? <==>
              RequiredColumns(key) <= f.columns
              && forall i :: 0 <= i < |f.records| ==> !Unparsable(f.records[i], parse)
    ensures r.Some? ==> Shaped(r.value)
  {
    if RequiredColumns(key) <= f.columns then PrepareTimeSeriesData(f.records, key, parse) else None
  }

  const NoDataError: string := "No data found in database"
  const CompanyPrepareError: string := "Failed to prepare company time series data"
  const StatePrepareError: string := "Failed to prepare state time series data"

  /**
   * The clock readings of one run: the timeline and stamp of the company
   * payload, those of the state payload, and the combined stamp.
   */
  datatype Clock = Clock(companyNow: DateTime, companyStamp: DateTime,
                         stateNow: DateTime, stateStamp: DateTime, combinedStamp: DateTime)

  predicate ValidClock(c: Clock) {
    ValidNow(c.companyNow) && ValidNow(c.stateNow)
  }

  /** The returned dict: an `error`, or both payloads with the run's metadata. */
  datatype ServiceResult =
    | Failed(error: string)
    | Combined(companyForecasts: ReactReport, stateForecasts: ReactReport,
               generatedAt: DateTime, forecastMonths: int, topN: int)

  /** The forecasts of the leading entities of a table. */
  function TopForecasts(t: Table, topN: int, periods: int,
                        prophet: (seq<Observation>, int) -> Option<seq<ForecastRow>>): seq<(string, EntityForecast)>
    requires Shaped(t)
  {
    Collected(t, TopEntities(t, topN), periods, prophet)
  }

  /** The result of a run on a frame that holds data. */
  function OutcomeOf(f: Frame, topN: int, periods: int, parse: string -> Option<Date>,
                     prophet: (seq<Observation>, int) -> Option<seq<ForecastRow>>, clock: Clock): ServiceResult
    requires ValidClock(clock)
  {
    match PrepareFrame(f, ByCompany, parse)
    case None => Failed(CompanyPrepareError)
    case Some(ct) =>
      match PrepareFrame(f, ByState, parse)
      case None => Failed(StatePrepareError)
      case Some(st) =>
        Combined(ReportOf(TopForecasts(ct, topN, periods, prophet), ct, clock.companyNow, clock.companyStamp, ByCompany),
                 ReportOf(TopForecasts(st, topN, periods, prophet), st, clock.stateNow, clock.stateStamp, ByState),
                 clock.combinedStamp, periods, topN)
  }

  /** A successful preparation yields a pivot table. */
  lemma PreparedFrameWellFormed(f: Frame, key: GroupKey, parse: string -> Option<Date>)
    requires DateParser(parse) && PrepareFrame(f, key, parse).Some?
    ensures WellFormed(PrepareFrame(f, key, parse).value)
  {
    PreparedTableShape(f.records, key, parse);
  }

  class ForecastService {
    /** The company table of the last run that prepared one. */
    var timeSeriesData: Option<Table>

    constructor()
      ensures timeSeriesData == None
    {
      timeSeriesData := None;
    }

    /**
     * The shared body of both entry points: prepare the company table (kept
     * on the service), then the state table, forecast the leading entities
     * of each and build both payloads.
     */
    method Run(f: Frame, topN: int, periods: int, parse: string -> Option<Date>,
               prophet: (seq<Observation>, int) -> Option<seq<ForecastRow>>, clock: Clock)
      returns (r: ServiceResult)
      requires DateParser(parse) && ValidClock(clock)
      modifies this
      ensures timeSeriesData == PrepareFrame(f, ByCompany, parse)
      ensures r == OutcomeOf(f, topN, periods, parse, prophet, clock)
    {
      timeSeriesData := PrepareFrame(f, ByCompany, parse);
      if timeSeriesData.None? {
        return Failed(CompanyPrepareError);
      }
      var companyTable := timeSeriesData.value;
      var stateData := PrepareFrame(f, ByState, parse);
      if stateData.None? {
        return Failed(StatePrepareError);
      }
      var stateTable := stateData.value;
      PreparedFrameWellFormed(f, ByCompany, parse);
      PreparedFrameWellFormed(f, ByState, parse);

      var companyForecasts := GetTopForecasts(companyTable, topN, periods, prophet);
      var stateForecasts := GetTopForecasts(stateTable, topN, periods, prophet);
      var companyReport := GenerateReactForecastData(companyForecasts, companyTable, clock.companyNow,
                                                     clock.companyStamp, ByCompany);
      var stateReport := GenerateReactForecastData(stateForecasts, stateTable, clock.stateNow,
                                                   clock.stateStamp, ByState);
      r := Combined(companyReport, stateReport, clock.combinedStamp, periods, topN);
    }

    /** `generate_forecast_from_csv` on the frame `pd.read_csv` loaded. */
    method GenerateForecastFromCsv(f: Frame, topN: int, periods: int, parse: string -> Option<Date>,
                                   prophet: (seq<Observation>, int) -> Option<seq<ForecastRow>>, clock: Clock)
      returns (r: ServiceResult)
      requires DateParser(parse) && ValidClock(clock)
      modifies this
      ensures timeSeriesData == PrepareFrame(f, ByCompany, parse)
      ensures r == OutcomeOf(f, topN, periods, parse, prophet, clock)
    {
      r := Run(f, topN, periods, parse, prophet, clock);
    }

    /**
     * `generate_forecast_from_db` on the frame the query returned (`None`
     * when the fetch failed): no data leaves the service untouched.
     */
    method GenerateForecastFromDb(data: Option<Frame>, topN: int, periods: int, parse: string -> Option<Date>,
                                  prophet: (seq<Observation>, int) -> Option<seq<ForecastRow>>, clock: Clock)
      returns (r: ServiceResult)
      requires DateParser(parse) && ValidClock(clock)
      modifies this
      ensures data.None? || FrameEmpty(data.value) ==>
                r == Failed(NoDataError) && timeSeriesData == old(timeSeriesData)
      ensures data.Some? && !FrameEmpty(data.value) ==>
                timeSeriesData == PrepareFrame(data.value, ByCompany, parse)
                && r == OutcomeOf(data.value, topN, periods, parse, prophet, clock)
    {
      if data.None? || FrameEmpty(data.value) {
        return Failed(NoDataError);
      }
      r := Run(data.value, topN, periods, parse, prophet, clock);
    }
  }

  /**
   * A run fails exactly when a preparation fails, and names the company
   * table whenever that one failed.
   */
  lemma OutcomeErrors(f: Frame, topN: int, periods: int, parse: string -> Option<Date>,
                      prophet: (seq<Observation>, int) -> Option<seq<ForecastRow>>, clock: Clock)
    requires ValidClock(clock)
    ensures var r := OutcomeOf(f, topN, periods, parse, prophet, clock);
            (r.Failed? <==> PrepareFrame(f, ByCompany, parse).None? || PrepareFrame(f, ByState, parse).None?)
            && (r.Failed? ==> (r.error == CompanyPrepareError <==> PrepareFrame(f, ByCompany, parse).None?))
            && (r.Failed? ==> r.error == CompanyPrepareError || r.error == StatePrepareError)
  {
  }

  /**
   * Once the company table is prepared, the dates have all parsed, so the
   * state table can fail only for want of the `State` column.
   */
  lemma StateFailureNeedsColumn(f: Frame, parse: string -> Option<Date>)
    requires PrepareFrame(f, ByCompany, parse).Some?
    ensures PrepareFrame(f, ByState, parse).Some? <==> StateColumn in f.columns
  {
    assert DateColumn in f.columns && AmountColumn in f.columns;
  }

  /**
   * In a successful run each payload is empty exactly when none of its
   * leading entities could be forecast, and otherwise lists just the ones
   * that could.
   */
  lemma CombinedPayloads(f: Frame, topN: int, periods: int, parse: string -> Option<Date>,
                         prophet: (seq<Observation>, int) -> Option<seq<ForecastRow>>, clock: Clock)
    requires DateParser(parse) && ValidClock(clock)
    requires OutcomeOf(f, topN, periods, parse, prophet, clock).Combined?
    ensures var r := OutcomeOf(f, topN, periods, parse, prophet, clock);
            var ct := PrepareFrame(f, ByCompany, parse).value;
            var st := PrepareFrame(f, ByState, parse).value;
            (r.companyForecasts.NoForecasts? <==>
               forall e :: e in TopEntities(ct, topN) ==> !Kept(ct, e, periods, prophet))
            && (r.stateForecasts.NoForecasts? <==>
               forall e :: e in TopEntities(st, topN) ==> !Kept(st, e, periods, prophet))
            && (r.companyForecasts.ReactReport? ==>
               forall e :: e in r.companyForecasts.entities <==> e in TopEntities(ct, topN) && Kept(ct, e, periods, prophet))
            && (r.stateForecasts.ReactReport? ==>
               forall e :: e in r.stateForecasts.entities <==> e in TopEntities(st, topN) && Kept(st, e, periods, prophet))
  {
    var ct := PrepareFrame(f, ByCompany, parse).value;
    var st := PrepareFrame(f, ByState, parse).value;
    PreparedFrameWellFormed(f, ByCompany, parse);
    PreparedFrameWellFormed(f, ByState, parse);
    TopForecastsKeys(ct, topN, periods, prophet);
    TopForecastsKeys(st, topN, periods, prophet);
    var cf := TopForecasts(ct, topN, periods, prophet);
    var sf := TopForecasts(st, topN, periods, prophet);
    if |cf| > 0 {
      assert cf[0].0 in Keys(cf);
    }
    if |sf| > 0 {
      assert sf[0].0 in Keys(sf);
    }
  }
}
