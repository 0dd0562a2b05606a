/**
  The percentage columns of the two tables. Every division here is left
  unguarded by the report, so a zero denominator yields `None` (the
  dataframe's inf/NaN) rather than a number.
 */
module Metrics {
  import opened Wrappers
  import opened Seqs
  import opened Reconciler

  /** `part / whole * 100`, undefined when `whole` is 0. */
  function Percent(part: int, whole: int): (r: Option<real>)
    ensures r.Some? <==> whole != 0
    ensures r.Some? ==> r.value * (whole as real) == (part as real) * 100.0
  {
    if whole == 0 then None else Some((part as real) / (whole as real) * 100.0)
  }

  /** A segment-table row: key, `Ventas`, `Forecast`, `% Ventas`, `% Forecast`, `% Ventas vs Forecast`. */
  datatype SegmentRow = SegmentRow(
    segmento: string,
    ventas: int,
    forecast: int,
    pctVentas: Option<real>,
    pctForecast: Option<real>,
    ventasVsForecast: Option<real>)

  function SegmentName(r: SegmentRow): string { r.segmento }

  /** A vendor-table row: key, `Ventas`, `Forecast`, `%`. */
  datatype VendorRow = VendorRow(vendedor: string, ventas: int, forecast: int, pct: Option<real>)

  function VendorName(r: VendorRow): string { r.vendedor }

  function SegmentRowsWith(rows: seq<Merged>, forecastTotal: int): (r: seq<SegmentRow>)
    ensures |r| == |rows|
    ensures forall i :: 0 <= i < |rows| ==>
      && r[i].segmento == rows[i].key
      && r[i].ventas == rows[i].ventas
      && r[i].forecast == rows[i].forecast
      && r[i].pctVentas == Percent(rows[i].ventas, forecastTotal)
      && r[i].pctForecast == Percent(rows[i].forecast, forecastTotal)
      && r[i].ventasVsForecast == Percent(rows[i].ventas, rows[i].forecast)
  {
    if rows == [] then []
    else
      var m := rows[0];
      [SegmentRow(m.key, m.ventas, m.forecast,
                  Percent(m.ventas, forecastTotal),
                  Percent(m.forecast, forecastTotal),
                  Percent(m.ventas, m.forecast))]
      + SegmentRowsWith(rows[1..], forecastTotal)
  }

  /**
    The segment table's metric columns. Both shares are taken against the
    table's `Forecast` total: `% Ventas` is a row's sales against total
    planned revenue, `% Forecast` its share of that plan. The last column is
    the row's own sales against its own forecast.
   */
  function SegmentMetrics(rows: seq<Merged>): (r: seq<SegmentRow>)
    ensures |r| == |rows|
    ensures forall i :: 0 <= i < |rows| ==>
      && r[i].segmento == rows[i].key
      && r[i].ventas == rows[i].ventas
      && r[i].forecast == rows[i].forecast
      && r[i].pctVentas == Percent(rows[i].ventas, SumOf(rows, MergedForecast))
      && r[i].pctForecast == Percent(rows[i].forecast, SumOf(rows, MergedForecast))
      && r[i].ventasVsForecast == Percent(rows[i].ventas, rows[i].forecast)
  {
    SegmentRowsWith(rows, SumOf(rows, MergedForecast))
  }

  /** The vendor table's `%` column: each row's sales against its own forecast. */
  function VendorMetrics(rows: seq<Merged>): (r: seq<VendorRow>)
    ensures |r| == |rows|
    ensures forall i :: 0 <= i < |rows| ==>
      && r[i].vendedor == rows[i].key
      && r[i].ventas == rows[i].ventas
      && r[i].forecast == rows[i].forecast
      && r[i].pct == Percent(rows[i].ventas, rows[i].forecast)
  {
    if rows == [] then []
    else
      var m := rows[0];
      [VendorRow(m.key, m.ventas, m.forecast, Percent(m.ventas, m.forecast))] + VendorMetrics(rows[1..])
  }

  /** Sum of the defined `% Forecast` entries. */
  function ForecastShareSum(r: seq<SegmentRow>): real {
    if r == [] then 0.0 else r[0].pctForecast.GetOr(0.0) + ForecastShareSum(r[1..])
  }

  lemma {:induction false} ShareSumScales(rows: seq<Merged>, total: int)
    requires total != 0
    ensures ForecastShareSum(SegmentRowsWith(rows, total))
         == (SumOf(rows, MergedForecast) as real) / (total as real) * 100.0
  {
    if rows != [] {
      ShareSumScales(rows[1..], total);
      var t := total as real;
      var x := rows[0].forecast as real;
      var y := SumOf(rows[1..], MergedForecast) as real;
      assert x / t * 100.0 + y / t * 100.0 == (x + y) / t * 100.0;
    }
  }

  /** Whenever the forecast total is non-zero the `% Forecast` column adds up to exactly 100. */
  lemma ForecastSharesSumTo100(rows: seq<Merged>)
    requires SumOf(rows, MergedForecast) != 0
    ensures ForecastShareSum(SegmentMetrics(rows)) == 100.0
  {
    var total := SumOf(rows, MergedForecast);
    assert SegmentMetrics(rows) == SegmentRowsWith(rows, total);
    ShareSumScales(rows, total);
    WholeIsHundredPercent(total);
  }

  lemma WholeIsHundredPercent(t: int)
    requires t != 0
    ensures (t as real) / (t as real) * 100.0 == 100.0
  {
    assert (t as real) / (t as real) == 1.0;
  }

  /** Row ratio examples: 0 of 100 forecast is 0%, 150 of 100 is 150%, anything of 0 is undefined. */
  lemma RatioExamples(ventas: int)
    ensures Percent(0, 100) == Some(0.0)
    ensures Percent(150, 100) == Some(150.0)
    ensures Percent(ventas, 0) == None
  {
  }
}
