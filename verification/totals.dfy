/** The three headline figures of the selected month. */
module Totals {
  import opened Records
  import opened Seqs

  /** `Total Forecast`: sum of `Monto_euro` over the month's forecast rows. */
  function TotalForecast(forecast: seq<ForecastRecord>): int
  {
    SumOf(forecast, ForecastAmount)
  }

  /** `Total Ventas`: sum of the normalized amount over the month's sales rows. */
  function TotalVentas(sales: seq<SalesRecord>): int
  {
    SumOf(sales, SaleAmount)
  }

  /**
    `Ventas vs Forecast (%)`: sales as a percentage of forecast, and 0 when the
    forecast total is not positive.
   */
  function OverallPercent(ventas: int, forecast: int): (r: real)
    ensures forecast > 0 ==> r * (forecast as real) == (ventas as real) * 100.0
    ensures forecast <= 0 ==> r == 0.0
  {
    if forecast > 0 then (ventas as real) / (forecast as real) * 100.0 else 0.0
  }
}
