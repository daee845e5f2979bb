# Returns forecast: a Dafny model of its deterministic core

The system takes the monthly product returns of a set of vendors, with their
amounts, companies and states. It produces a dashboard payload: the last
twelve complete months of history (thirteen when the clock reads exactly midnight) and a six-month forecast for the leading
companies and the leading states, with a set of KPIs. Three parts of it are
modelled here.

- **The forecast report engine** (`ForecastService`):
  - the month-by-entity pivot table;
  - the ranking of entities by their last six months;
  - the per-entity skip rule;
  - the reporting timeline anchored at the clock;
  - the dashboard rows and the KPIs;
  - the two entry points that combine the company and state payloads.

  The state variants are the company code with another grouping column, so
  both are one model parameterised by `GroupKey`.
- **Ingestion and the model registry** (`DataProcessor`):
  - the date-string validator;
  - the record-cleaning pipeline;
  - the JSON structure check;
  - the conversion guards and the time-stamped file name;
  - the data hash;
  - the registry of trained models, with its update operation, the
    retrain decision and the model-path lookup.
- **The forecast dispatch** (`CrossPlatformProphet` and
  `FallbackForecastModel`):
  - Prophet when it is available and completes, otherwise the regression
    fallback, with its `is_fitted` guard;
  - the calendar features and the month-start future dates;
  - the fixed ±20% band.

Foreign computations are parameters of the model, so every property holds
whatever they return:

- Prophet's fit and predict, and the two scikit-learn regressions;
- `pd.to_datetime`, `pd.to_numeric`, `str.upper`, `DataFrame.to_string` and
  MD5;
- the clock;
- the registry file and the set of paths that exist.

The modules follow the source:

| module | source |
|---|---|
| `Calendar` | Python's date arithmetic |
| `Timeline` | `get_current_month_info` |
| `Aggregation` | `prepare_*time_series_data` |
| `Ranking` | `get_top_*_forecast`, `forecast_*_returns` |
| `Kpis` | `calculate_*kpis` |
| `Report` | `generate_*react_forecast_data` |
| `Service` | the class `ForecastService` |
| `DateFormat` | the date validator |
| `Cleaning` | `_clean_data` |
| `JsonInput` | `validate_json_structure` |
| `Processor` | the class `DataProcessor` |
| `Fallback` | `FallbackForecastModel` |
| `Dispatch` | `CrossPlatformProphet` |

`JsonData`, `Series`, `Collections` and `Wrappers` hold the shared values.

`test_cross_platform_fix.py:194` calls `ForecastService._validate_data_quality`,
which `services/forecast_service.py` does not define. The model follows
`services/forecast_service.py` and has no data-quality gate.

## Model

| member | source | states |
|---|---|---|
| Calendar.YearBeforeFirstOfMonth | services/forecast_service.py:233-234 | 365 days before the 1st of a month is the 1st or the 2nd of the same month a year earlier |
| Timeline.GetCurrentMonthInfo | services/forecast_service.py:221-254 | the current month; the previous month, with January rolling to December of the year before; the history start one year before that; six forecast months, the first the current month, each one month after the last, months in 1..12; defined for a current month from February of year 2 to July of year 9999 |
| Timeline.YearBack | services/forecast_service.py:233-234 | subtracting 365 days and resetting the day to 1 gives the same month one year earlier, with or without a 29 February in between |
| Timeline.MonthCarry | services/forecast_service.py:238-243 | the loop's year/month carry is the month `i` months after the current one |
| Timeline.MonthsFromIndex | services/forecast_service.py:237-244 | each forecast month is valid and `i` months after the current month |
| Timeline.HistoricalWindow | services/forecast_service.py:271-279 | a table month is in the historical mask iff it lies after the history start and up to the previous month; the start month itself counts only when the clock reads midnight |
| Timeline.WindowBeforeForecast | services/forecast_service.py:278-279 | every historical month precedes the first forecast month |
| Aggregation.Dated | services/forecast_service.py:19-25 | the records that have a date, in order: a missing date becomes `NaT` and `groupby` drops its row |
| Aggregation.ParseRecords | services/forecast_service.py:19-20 | one present but unparsable date fails the whole preparation; otherwise each record with a date keeps its month and group value, and a record without a date is dropped |
| Aggregation.GroupedEntities | services/forecast_service.py:23 | groupby keeps exactly the group values present; records without one are dropped |
| Aggregation.PrepareTimeSeriesData | services/forecast_service.py:13-37 | `None` iff some present date does not parse; otherwise a table of matching shape |
| Aggregation.PreparedTableShape | services/forecast_service.py:19-34 | one row per month holding a dated, grouped record, strictly increasing; one column per group value of a dated record; one column per distinct group value, in string order; every cell the entity's sum in that month, 0 when it has none |
| Aggregation.TableMonthsFacts | services/forecast_service.py:26-32 | the row index holds each grouped month once, in strictly increasing order |
| Aggregation.TableEntitiesFacts | services/forecast_service.py:27-32 | the columns hold each group value once, sorted |
| Aggregation.TableConservesAmounts | services/forecast_service.py:23-32 | the cells add up to the total amount of the grouped records: nothing lost or invented |
| Ranking.RecentStart | services/forecast_service.py:121 | `tail(6)` keeps the last min(6, rows) rows |
| Ranking.Ranked | services/forecast_service.py:122 | the columns ordered by non-increasing recent total, a permutation of all positions |
| Ranking.RankedPositions | services/forecast_service.py:122 | the ranking lists every column exactly once |
| Ranking.HeadCount | services/forecast_service.py:123 | `head(n)` keeps at most the whole series (a negative n drops from the end) |
| Ranking.TopEntities | services/forecast_service.py:123 | `HeadCount(top_n, columns)` entities, all columns of the table |
| Ranking.TopEntitiesSelection | services/forecast_service.py:121-123 | exactly min(top_n, columns) distinct entities; every selected entity's recent total is at least every unselected one's; listed by non-increasing total |
| Ranking.PositivePoints | services/forecast_service.py:71-73 | exactly the points with y > 0, no more than the series |
| Ranking.ForecastEntity | services/forecast_service.py:65-113 | a forecast iff at least 4 positive points remain and the forecaster does not raise; it keeps those points as its history and the forecaster's rows as its forecast |
| Ranking.GetTopForecasts | services/forecast_service.py:115-141 | the loop collects one attempt per ranked entity, keeping the successes in rank order |
| Ranking.CollectedKeys | services/forecast_service.py:129-136 | an entity is in the result iff it is listed and kept; each value is that entity's own forecast; the order follows the list |
| Ranking.TopForecastsKeys | services/forecast_service.py:129-138 | the result's keys are exactly the ranked entities that were kept, distinct and in rank order |
| Kpis.FilterMembership | services/forecast_service.py:444-445 | the two comprehensions keep exactly the historical rows and exactly the forecast rows |
| Kpis.FiltersAppend | services/forecast_service.py:444-445 | both comprehensions keep the order: filtering a concatenation concatenates the filtered parts |
| Kpis.SumEntities | services/forecast_service.py:451-452 | the loop sums `row.get(c, 0)` over the entities |
| Kpis.GrowthPercent | services/forecast_service.py:469-475 | the percentage change, 0 unless the base is positive |
| Kpis.GrowthMeaning | services/forecast_service.py:469-475 | growth applied to a positive base gives back the new value; positive iff the value rose, 0 iff unchanged; 0 for a base not > 0 |
| Kpis.RoundHalfEven | services/forecast_service.py:498 | Python `round`: within 1/2 of x, ties to the even integer |
| Kpis.Average | services/forecast_service.py:486 | within 1/2 of total / count; 0 when there are no forecast rows |
| Kpis.CalculateKpis | services/forecast_service.py:440-501 | the loops compute the KPI set: previous-month total over the last historical row, current and next month totals, the two growths, the six-month total, the average, 8.2 and the entity count |
| Kpis.KpiBounds | services/forecast_service.py:477-486 | with non-negative predictions the six-month total covers the current plus next month, and is 0 without forecast rows |
| Kpis.FilterBlocks | services/forecast_service.py:443-445 | a historical block followed by a forecast block splits back into the two blocks |
| Report.Trunc | services/forecast_service.py:293 | `int()` truncates toward zero |
| Report.PredFor | services/forecast_service.py:308-315 | a forecast month's value is never negative |
| Report.PredForFirstMatch | services/forecast_service.py:311-313 | the value is `max(0, int(yhat))` of the first forecast row of that year-month |
| Report.PredForNoMatch | services/forecast_service.py:314-315 | without a row of that year-month the value is 0 |
| Report.Lookup | services/forecast_service.py:307-308 | an entity's forecast is found iff it is a key of the forecasts |
| Report.WindowIndices | services/forecast_service.py:278-279 | the mask keeps exactly the table rows in the window, in table order |
| Report.BuildHistoricalRow | services/forecast_service.py:290-296 | the loop fills the truncated cell of each entity, 0 for a name that is not a column |
| Report.BuildForecastRow | services/forecast_service.py:300-318 | the loop fills each entity's prediction for the month, 0 without a forecast |
| Report.RowOrder | services/forecast_service.py:321 | the sort key orders rows by month and is a total preorder |
| Report.GenerateReactForecastData | services/forecast_service.py:256-346 | the loops and the sort build the payload: no forecasts give the error payload; otherwise the historical rows, the six forecast rows, sorted, with the KPIs and the timeline |
| Report.HistoricalRowsOrdered | services/forecast_service.py:288-296 | the historical rows are window months, strictly increasing |
| Report.ForecastRowsOrdered | services/forecast_service.py:299-304 | six forecast rows, one per forecast month, one month apart |
| Report.PayloadOrdered | services/forecast_service.py:320-321 | the rows as built are already strictly increasing by month |
| Report.ReportLayout | services/forecast_service.py:320-344 | the sort leaves the built rows in place: history then six forecast months; the counts and KPIs are those of these rows |
| Report.ForecastPredsMeaning | services/forecast_service.py:306-317 | every entity has a `_pred` value, its own non-negative truncated prediction for the month |
| Report.PayloadHistoricalRows | services/forecast_service.py:278-296 | a table month yields a historical row iff it is in the window; the historical rows precede the forecast rows |
| Report.PayloadForecastRows | services/forecast_service.py:299-318 | each forecast row carries its month's predictions; `isCurrentMonth` holds exactly for the current month |
| Report.PayloadPredsNonNegative | services/forecast_service.py:313 | every prediction in the payload is non-negative |
| Report.PayloadKpiSums | services/forecast_service.py:447-466 | previous-month total over the last historical row (0 without one); current and next totals over the first two forecast months; the entity count |
| Report.PayloadKpiBounds | services/forecast_service.py:477-486 | the six-month total covers the current and next month; the average is the rounded mean over six months |
| Collections.Dedup | utils/data_processor.py:109 | `drop_duplicates`: every row once, nothing else, no more rows, in the order of each row's first occurrence |
| Collections.SortBy | services/forecast_service.py:321 | sorted by the key and a permutation of its input |
| Collections.SortByStable | services/forecast_service.py:321 | stability: for every key, the elements with that key appear in the sorted sequence in their input order |
| Collections.SortByKeepsTiedOrder | services/forecast_service.py:321 | stability by labels: when the input lists its elements with increasing labels, any two sorted elements with the same key are in label order |
| Collections.SortSortedFixpoint | services/forecast_service.py:321 | sorting rows that are already in order leaves them unchanged |
| Service.PrepareFrame | services/forecast_service.py:17-37 | a table iff the needed columns exist and every present date parses; a missing date only drops its record |
| Service.PreparedFrameWellFormed | services/forecast_service.py:27-34 | a prepared table is a well-formed pivot |
| Service.ForecastService.constructor | services/forecast_service.py:10-11 | no table is kept at first |
| Service.ForecastService.Run | services/forecast_service.py:570-614 | keeps the company table, prepares the state table, forecasts and combines both payloads, or names the preparation that failed |
| Service.ForecastService.GenerateForecastFromCsv | services/forecast_service.py:566-618 | the shared run on the loaded frame |
| Service.ForecastService.GenerateForecastFromDb | services/forecast_service.py:620-675 | no data or an empty frame gives "No data found in database" and leaves the kept table alone; otherwise the shared run |
| Service.OutcomeErrors | services/forecast_service.py:574-582 | a run fails iff a preparation fails, and names the company table whenever that one failed |
| Service.StateFailureNeedsColumn | services/forecast_service.py:579-582 | after the company table, the state table fails iff the `State` column is missing |
| Service.CombinedPayloads | services/forecast_service.py:587-612 | each payload is empty iff none of its ranked entities was kept, and otherwise lists exactly the kept ones |
| DateFormat.Strip | utils/data_processor.py:139 | the input with exactly its leading and trailing white space removed: a contiguous piece with no white space at either end, everything before and after it white space |
| DateFormat.ValidDateFormatMeaning | utils/data_processor.py:135-157 | a value passes iff it is a string whose stripped text is an RFC 3339 `full-date`, optionally followed by `T` and a `partial-time` with an optional fraction, and no offset |
| DateFormat.AcceptedShape | utils/data_processor.py:147-155 | the three accepted patterns match exactly those strings |
| DateFormat.RejectedNeverAccepted | utils/data_processor.py:141-144 | no string of an accepted shape matches a rejected pattern |
| DateFormat.DateOnly | utils/data_processor.py:148 | `\d{4}-\d{2}-\d{2}` matches exactly a `full-date` |
| DateFormat.DateTimeOnly | utils/data_processor.py:149 | the date-time pattern matches exactly a date, `T` and `hh:mm:ss` |
| DateFormat.DateTimeFraction | utils/data_processor.py:150 | the fractional pattern adds `.` and one or more digits |
| DateFormat.StarMatches | utils/data_processor.py:150 | `\d*` matches exactly the all-digit strings |
| DateFormat.SlashShape | utils/data_processor.py:127-129 | the slash patterns only match strings holding `/` |
| DateFormat.DashShape | utils/data_processor.py:128 | the `D-M-YYYY` pattern puts a dash at position 1 or 2 |
| Cleaning.Columns | utils/data_processor.py:34 | the frame's columns are exactly the keys some record holds |
| Cleaning.Screen | utils/data_processor.py:72-75 | exactly the records with a date, a name and an amount whose date string has an accepted shape |
| Cleaning.Convert | utils/data_processor.py:78-97 | exactly the screened records whose date converts and whose amount converts to a positive number |
| Cleaning.Normalised | utils/data_processor.py:100-103 | a string is stripped and upper-cased; any other value becomes missing |
| Cleaning.CleanData | utils/data_processor.py:66-120 | no more rows than the input, no duplicates, exactly the normalised converted rows, in the input order of each row's first occurrence |
| Cleaning.CleanedRowsValid | utils/data_processor.py:72-103 | every output row comes from a record with a date, a name and an amount; its date shape passed; its amount converted and is > 0; its name and state are normalised; it keeps the other columns |
| Cleaning.ConvertedRowsKept | utils/data_processor.py:78-109 | every screened record whose date and positive amount convert is in the output |
| JsonInput.Contains | utils/data_processor.py:304 | `in` on a dict, str or list; a TypeError naming the type otherwise |
| JsonInput.CheckFields | utils/data_processor.py:303-307 | a pass always says "Valid structure" |
| JsonInput.ValidateJsonStructure | utils/data_processor.py:290-310 | not a list, empty list and an unsearchable first element each give their message; a pass says "Valid structure" |
| JsonInput.CheckFieldsObject | utils/data_processor.py:303-305 | on a dict: a pass iff every field is present; otherwise the first missing field is named |
| JsonInput.ValidationOfRecords | utils/data_processor.py:293-307 | a pass iff the first record has all four fields; otherwise the first missing one in the order date, name, state, amount |
| JsonInput.OnlyFirstRecord | utils/data_processor.py:300 | the elements after the first never change the verdict |
| Processor.StampTail | utils/data_processor.py:52 | `%m%d_%H%M%S` is eleven characters |
| Processor.StampTailInjective | utils/data_processor.py:52 | the stamp's tail determines the month, the day and the second |
| Processor.CsvPathsDistinct | utils/data_processor.py:51-54 | two conversions write the same file iff they run on the same day in the same second |
| Processor.ConversionGuards | utils/data_processor.py:28-49 | `None` iff there is no data, a required field is in no record, or cleaning leaves nothing; otherwise the timestamped path and the cleaned rows |
| Processor.DataProcessor.constructor | utils/data_processor.py:9-12 | the registry file and existing paths as given; no file written yet |
| Processor.DataProcessor.ConvertJsonToCsv | utils/data_processor.py:14-64 | returns the path iff the conversion succeeds; that file holds the cleaned rows and now exists; the registry is untouched |
| Processor.Indexed | utils/data_processor.py:176 | each row is labelled with its position in the file |
| Processor.HashKeyOrder | utils/data_processor.py:180 | the sort key (date string, then name, a missing name last) is a total preorder |
| Processor.SortedForHash | utils/data_processor.py:180 | the labelled rows, sorted by the key and permuted only |
| Processor.SortedForHashElements | utils/data_processor.py:180 | the sort keeps every row under its own label |
| Processor.Reformat | utils/data_processor.py:184 | the rows, sorted by date then name with missing values last, have their dates rewritten row by row; a missing date stays missing; a present one that does not convert fails the column |
| Processor.CalculateDataHash | utils/data_processor.py:173-194 | a hash iff the file is readable, has the four columns and every present date converts; otherwise `None` |
| Processor.SortedForHashStable | utils/data_processor.py:180 | rows with the same date and name keep their file order: the earlier row (lower label) comes first |
| Processor.HashOrderSensitive | utils/data_processor.py:178-187 | the printed rows keep the file's labels: two rows and the same rows swapped give the same sorted rows iff the rows are equal, so the hash depends on the row order |
| Processor.LoadModelRegistry | utils/data_processor.py:243-252 | the stored dict, `None` when the file is absent or unreadable |
| Processor.Companies | utils/data_processor.py:219 | each name of the file once, a missing name included |
| Processor.DataProcessor.ShouldRetrainModels | utils/data_processor.py:196-241 | the loop with `break` decides: forced; no hash; no registry or `{}`; a non-empty dict without `models` with companies to check; or a company with no entry or another hash |
| Processor.UpdateEffect | utils/data_processor.py:254-264 | the company's entry and `last_updated` are set; other entries and the counters are kept; without a registry (or with `{}`) a fresh one holds only this company; it fails iff the registry is a non-empty dict without `models` |
| Processor.RegistryWithoutModels | utils/data_processor.py:213-259 | a dict holding only other keys is truthy: the update raises and writes nothing, and the retraining check asks for retraining iff there is a company to look up |
| Processor.UpdatedWritable | utils/data_processor.py:257-264 | an update leaves a truthy registry that can be updated again |
| Processor.UpdateAllRecords | utils/data_processor.py:257-263 | updating every company records each with the hash and keeps the other entries |
| Processor.RetrainIdempotent | utils/data_processor.py:218-237 | after every company is recorded with the data's hash, the same data asks for no retraining |
| Processor.DataProcessor.UpdateModelRegistry | utils/data_processor.py:254-275 | the registry file holds the update, or is unchanged when the update raises on a non-empty dict without `models` |
| Processor.DataProcessor.GetModelPath | utils/data_processor.py:277-288 | the stored path iff the company has an entry and that file exists |
| Fallback.FeaturesOf | utils/prophet_wrapper.py:305-317 | `time_index` 0..n-1 in row order; `month` and `year` from `ds`; the quarter of the month |
| Fallback.SeasonalInputs | utils/prophet_wrapper.py:295 | the seasonal inputs are (month, quarter) of each row |
| Fallback.FeatureRanges | utils/prophet_wrapper.py:313-315 | month in 1..12, quarter in 1..4 and holding the month |
| Fallback.FeaturesContinue | utils/prophet_wrapper.py:337-338 | with history included, future rows continue the index at n and keep their own calendar features |
| Fallback.Residuals | utils/prophet_wrapper.py:291-292 | `y - trend` row by row |
| Fallback.LatestDate | utils/prophet_wrapper.py:326 | the latest date of the frame |
| Fallback.FutureDatesFacts | utils/prophet_wrapper.py:329-330 | `periods` month starts one month apart: after a 1st they begin with the next month; after any other day they begin a month later, so the next month is skipped |
| Fallback.BandRow | utils/prophet_wrapper.py:368-369 | lower is exactly 0.8·yhat and upper 1.2·yhat |
| Fallback.BandOrdered | utils/prophet_wrapper.py:365-369 | lower ≤ yhat ≤ upper iff yhat ≥ 0 |
| Fallback.Predicted | utils/prophet_wrapper.py:345-377 | one row per date: trend plus seasonal on that row's features, with the band |
| Fallback.OutcomeOf | utils/prophet_wrapper.py:398-411 | success iff a forecast is returned iff there is no error; on failure the forecast and model are empty |
| Fallback.FallbackShape | utils/prophet_wrapper.py:383-402 | a successful forecast has len(df) + periods rows: the history's dates, then the future month starts, each with its band |
| Fallback.FallbackForecastModel.constructor | utils/prophet_wrapper.py:262-266 | not fitted, no regressions, no stored frame |
| Fallback.FallbackForecastModel.Fit | utils/prophet_wrapper.py:268-303 | both regressions are replaced then fitted; `is_fitted` is set only once both are fitted, and a failure leaves it as it was, with the seasonal regression unfitted and the trend regression fitted iff its own fit succeeded |
| Fallback.FallbackForecastModel.MakeFutureDataframe | utils/prophet_wrapper.py:319-343 | refused unless fitted; otherwise the history and future dates, or the error the frame causes |
| Fallback.FallbackForecastModel.Predict | utils/prophet_wrapper.py:345-381 | refused unless fitted; an unfitted regression raises; otherwise the banded predictions |
| Fallback.FallbackForecastModel.FitAndPredict | utils/prophet_wrapper.py:383-411 | stores the frame and returns the outcome of the forecast, never raising; after a successful fit both regressions are fitted and `is_fitted` is set, after a failed one the seasonal regression is unfitted, the trend regression is fitted iff its own fit succeeded, and `is_fitted` is unchanged |
| Dispatch.FallbackOutcome | utils/prophet_wrapper.py:242-256 | the fallback's forecast, always marked unsuccessful |
| Dispatch.SuccessOnlyFromProphet | utils/prophet_wrapper.py:171-256 | success iff Prophet is available and its run completed; every other path is the fallback's result with `success` false, even when it holds a forecast |
| Dispatch.CrossPlatformProphet.constructor | utils/prophet_wrapper.py:32-36 | the platform and availability as given; no timeout yet |
| Dispatch.CrossPlatformProphet.FallbackFitAndPredict | utils/prophet_wrapper.py:242-256 | a fresh fallback model's outcome with `success` false |
| Dispatch.CrossPlatformProphet.FitAndPredict | utils/prophet_wrapper.py:171-240 | the dispatch result; the timeout flag is raised only by a Windows timeout |

## Left out

- Prophet's fit and predict, and the scikit-learn regressions, are oracles. The model states what is done with their results, not how they are computed.
- MAPE (`accuracy`) is not modelled. It is floating-point arithmetic that nothing downstream reads.
- Kpis.CalculateKpis: the growth figures are exact reals. The source rounds them to one decimal with floating-point `round`.
- Floating point in general: amounts are exact reals. The `int()` truncation and `round()` are written out.
- Reading and writing CSV files, the registry's JSON file and `os.makedirs` are not modelled. The registry file is a value of the `DataProcessor`, the written files a map, and `os.path.exists` a set of paths.
- `datetime.now()` is a parameter, one per reading. `strftime('%b %Y')` labels are represented by the month itself.
- Timeline.GetCurrentMonthInfo: requires a current month from February of year 2 to July of year 9999, the range where the previous month, the history start and the last forecast month stay inside `datetime`'s years 1..9999; Python raises outside it.
- Processor.Stamp prints the year unpadded, as glibc's `%Y` does. Other platforms pad years below 1000.
- Report.GenerateReactForecastData: row labels are printed with `strftime('%b %Y')`, unpadded under glibc as above, and the sort at services/forecast_service.py:321 reads them back with `strptime`, whose `%Y` takes exactly four digits. So the source raises whenever a row's month lies before year 1000, which includes every report whose current month is before year 1000. The model represents labels by the months themselves and returns the report in those cases.
- Report.GenerateReactForecastData: each historical payload row is one dict in the source, so an entity named `month` or `isHistorical` overwrites the row's own key (services/forecast_service.py:290-296). An entity named `isHistorical` whose cell is 0 turns a historical row into a forecast row for `calculate_kpis`, and an entity named `month` makes the sort raise. The model keeps the row's own keys and the entity values in separate fields, so it does not capture these collisions. Names are upper-cased only on the JSON path, so such names can reach the report from the database.
- `pd.to_datetime` is an oracle that converts a whole column at once. Its format inference across the column is not modelled.
- `pd.to_numeric`, `str.upper`, `to_string` and MD5 are also oracles.
- Cleaning.CleanData: when a name or state column has non-missing values and none of them is a string (a column of numbers, say), the `.str` accessor raises and the source returns an empty frame. The model instead treats each non-string value as missing. That is what pandas does when the column mixes strings with other values, and a column holding only nulls is accepted by `.str`, as in the model.
- Unicode-aware `\d` is not modelled. A digit is an ASCII digit.
- Records that are not JSON objects, and nested values in date cells, are not modelled.
- A registry file holding something other than a dict, and entries lacking `data_hash` or `model_path`, are not modelled.
- The generic `except` branches that turn any other error into `None`, `{}` or `{"error": str(e)}` are not modelled. Only the errors named in the code are.
- Fallback.FallbackForecastModel.MakeFutureDataframe: dates carry no time of day. A last date with a time of day gives future month starts that carry that time of day, which the model drops; which months follow depends only on the day of the month.
- Fallback.FeaturesOf returns the feature columns. In the source, `_prepare_features` writes them into a frame, which is always a copy.
- The `CrossPlatformProphet.fallback_model` field, which is never set, is not modelled.
- The SIGALRM handler, the daemon thread and its join timeout, and the Prophet availability probe (which trains a model) are not modelled. The probe's verdict and the outcome of the Prophet run are inputs.
- `create_model` returning a fallback model is not modelled. That object has no `add_seasonality`, so the run raises and is covered as a raised run.
- `get_platform_info`, `test_prophet_availability`, the HTTP layer, the database connection and the configuration are outside the modelled core.
- Logging output is not modelled.
