/**
 * The two frame shapes that pass between the forecasting steps: an observed
 * series (`ds`, `y`) and a forecast (`ds`, `yhat`, `yhat_lower`,
 * `yhat_upper`). Every timestamp in these frames is a midnight, so a date
 * stands for it.
 */
module Series {
  import opened Calendar

  /** One observation of a series handed to a forecaster. */
  datatype Observation = Observation(ds: Date, y: real)

  /** One row of a forecast frame. */
  datatype ForecastRow = ForecastRow(ds: Date, yhat: real, yhatLower: real, yhatUpper: real)
}
