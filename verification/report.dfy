/**
  The monthly sales report: headline totals, segment table, vendor table and
  top unbilled forecast rows, all computed from the month's selected rows.
 */
module Report {
  import opened Wrappers
  import opened Records
  import opened Seqs
  import opened PeriodFilter
  import opened Totals
  import opened Aggregator
  import opened Reconciler
  import opened Metrics
  import opened TopN
  import opened LexOrder

  datatype MonthlyReport = MonthlyReport(
    totalForecast: int,
    totalVentas: int,
    porcentVentas: real,
    segmentTable: seq<SegmentRow>,
    vendorTable: seq<VendorRow>,
    topUnbilled: seq<ForecastRecord>)

  /** Actual and forecast amounts per segment, outer-merged. */
  function SegmentMerged(sales: seq<SalesRecord>, forecast: seq<ForecastRecord>): seq<Merged> {
    Merge(GroupSum(sales, SaleSegment, SaleAmount), GroupSum(forecast, ForecastSegment, ForecastAmount))
  }

  /** Actual and forecast amounts per vendor, outer-merged. */
  function VendorMerged(sales: seq<SalesRecord>, forecast: seq<ForecastRecord>): seq<Merged> {
    Merge(GroupSum(sales, SaleVendor, SaleAmount), GroupSum(forecast, ForecastVendor, ForecastAmount))
  }

  /** The segment table of the selected rows. */
  function SegmentTable(sales: seq<SalesRecord>, forecast: seq<ForecastRecord>): seq<SegmentRow> {
    SegmentMetrics(SegmentMerged(sales, forecast))
  }

  function VendorSales(r: VendorRow): int { r.ventas }

  /** The vendor table, largest sales first. */
  function VendorTable(rows: seq<Merged>): (r: seq<VendorRow>)
    ensures NonIncreasing(r, VendorSales)
    ensures multiset(r) == multiset(VendorMetrics(rows))
  {
    SortDesc(VendorMetrics(rows), VendorSales)
  }

  /**
    The whole report for month `mes`. The headline percentage is total sales
    over total forecast, times 100, and 0 when the month has no positive
    forecast; the top list is `TopUnbilled` of the month's forecast rows.
   */
  function BuildReport(sales: seq<SalesRecord>, forecast: seq<ForecastRecord>, mes: int): (r: MonthlyReport)
    ensures r.totalForecast == TotalForecast(FilterForecast(forecast, mes))
    ensures r.totalVentas == TotalVentas(FilterSales(sales, mes))
    ensures r.porcentVentas == OverallPercent(r.totalVentas, r.totalForecast)
    ensures r.totalForecast > 0 ==> r.porcentVentas == (r.totalVentas as real) / (r.totalForecast as real) * 100.0
    ensures r.totalForecast <= 0 ==> r.porcentVentas == 0.0
    ensures r.segmentTable == SegmentTable(FilterSales(sales, mes), FilterForecast(forecast, mes))
    ensures r.vendorTable == VendorTable(VendorMerged(FilterSales(sales, mes), FilterForecast(forecast, mes)))
    ensures r.topUnbilled == TopUnbilled(FilterForecast(forecast, mes), TopCount)
    ensures |r.topUnbilled| <= TopCount
    ensures forall i :: 0 <= i < |r.topUnbilled| ==>
      r.topUnbilled[i].facturado == NotBilled && r.topUnbilled[i].mes == mes
  {
    var s := FilterSales(sales, mes);
    var f := FilterForecast(forecast, mes);
    var tf := TotalForecast(f);
    var tv := TotalVentas(s);
    var top := TopUnbilled(f, TopCount);
    TopRowsInMonth(forecast, mes);
    MonthlyReport(
      tf, tv, OverallPercent(tv, tf),
      SegmentTable(s, f),
      VendorTable(VendorMerged(s, f)),
      top)
  }

  lemma TopRowsInMonth(forecast: seq<ForecastRecord>, mes: int)
    ensures var top := TopUnbilled(FilterForecast(forecast, mes), TopCount);
            forall i :: 0 <= i < |top| ==> top[i].mes == mes
  {
  }

  /**
    The segment table has one row per segment seen in the sales or forecast
    rows, and each row carries that segment's summed sales and forecast.
   */
  lemma SegmentTableContents(sales: seq<SalesRecord>, forecast: seq<ForecastRecord>)
    ensures var t := SegmentTable(sales, forecast);
            && KeysOf(t, SegmentName) == KeysOf(sales, SaleSegment) + KeysOf(forecast, ForecastSegment)
            && (forall i, j :: 0 <= i < j < |t| ==> t[i].segmento != t[j].segmento)
            && forall i :: 0 <= i < |t| ==>
                 && t[i].ventas == SumWhere(sales, SaleSegment, SaleAmount, t[i].segmento)
                 && t[i].forecast == SumWhere(forecast, ForecastSegment, ForecastAmount, t[i].segmento)
  {
    var a := GroupSum(sales, SaleSegment, SaleAmount);
    var b := GroupSum(forecast, ForecastSegment, ForecastAmount);
    var m := Merge(a, b);
    var t := SegmentMetrics(m);
    assert t == SegmentTable(sales, forecast);
    MergeZeroFill(a, b);
    MetricRowsKeepKeys(m);
    forall i | 0 <= i < |t|
      ensures && t[i].ventas == SumWhere(sales, SaleSegment, SaleAmount, t[i].segmento)
              && t[i].forecast == SumWhere(forecast, ForecastSegment, ForecastAmount, t[i].segmento)
    {
      assert t[i].segmento == m[i].key && t[i].ventas == m[i].ventas && t[i].forecast == m[i].forecast;
    }
  }

  /** The segment table has the merged table's keys, each once, with its amounts. */
  lemma MetricRowsKeepKeys(m: seq<Merged>)
    requires StrictlyAscending(m, MergedKey)
    ensures var t := SegmentMetrics(m);
            && KeysOf(t, SegmentName) == KeysOf(m, MergedKey)
            && (forall i, j :: 0 <= i < j < |t| ==> t[i].segmento != t[j].segmento)
  {
    var t := SegmentMetrics(m);
    forall k | k in KeysOf(m, MergedKey) ensures k in KeysOf(t, SegmentName) {
      var x :| x in m && x.key == k;
      var i :| 0 <= i < |m| && m[i] == x;
      assert t[i].segmento == k;
    }
    forall i, j | 0 <= i < j < |t| ensures t[i].segmento != t[j].segmento {
      LexOrder.LessIrreflexive(t[i].segmento);
    }
  }

  /**
    The denominator of both share columns is the month's total forecast, and
    the sales column adds up to the month's total sales: grouping and merging
    neither lose nor add an amount.
   */
  lemma TablesAddUpToTotals(sales: seq<SalesRecord>, forecast: seq<ForecastRecord>)
    ensures SumOf(SegmentMerged(sales, forecast), MergedForecast) == TotalForecast(forecast)
    ensures SumOf(SegmentMerged(sales, forecast), MergedVentas) == TotalVentas(sales)
    ensures SumOf(VendorMerged(sales, forecast), MergedForecast) == TotalForecast(forecast)
    ensures SumOf(VendorMerged(sales, forecast), MergedVentas) == TotalVentas(sales)
  {
    MergeTotals(GroupSum(sales, SaleSegment, SaleAmount), GroupSum(forecast, ForecastSegment, ForecastAmount));
    MergeTotals(GroupSum(sales, SaleVendor, SaleAmount), GroupSum(forecast, ForecastVendor, ForecastAmount));
  }

  /**
    A segment that has sales but no forecast in the month gets a zero-filled
    `Forecast`, and its `% Ventas vs Forecast` is undefined rather than 0.
   */
  lemma ZeroFillLeavesRatioUndefined(sales: seq<SalesRecord>, forecast: seq<ForecastRecord>)
    ensures var t := SegmentTable(sales, forecast);
            forall i :: 0 <= i < |t| && t[i].segmento !in KeysOf(forecast, ForecastSegment) ==>
              t[i].forecast == 0 && t[i].ventasVsForecast == None
  {
    MergeZeroFill(GroupSum(sales, SaleSegment, SaleAmount), GroupSum(forecast, ForecastSegment, ForecastAmount));
  }

  /** A month without any rows yields empty tables and zero totals, not a failure. */
  lemma EmptyMonth(sales: seq<SalesRecord>, forecast: seq<ForecastRecord>, mes: int)
    requires forall i :: 0 <= i < |sales| ==> sales[i].mes != mes
    requires forall i :: 0 <= i < |forecast| ==> forecast[i].mes != mes
    ensures BuildReport(sales, forecast, mes)
         == MonthlyReport(0, 0, 0.0, [], [], [])
  {
  }

  /**
    The vendor table has one row per vendor seen in the sales or forecast
    rows, each carrying that vendor's summed sales and forecast, largest
    sales first.
   */
  lemma VendorTableContents(sales: seq<SalesRecord>, forecast: seq<ForecastRecord>)
    ensures var t := VendorTable(VendorMerged(sales, forecast));
            && KeysOf(t, VendorName) == KeysOf(sales, SaleVendor) + KeysOf(forecast, ForecastVendor)
            && (forall i, j :: 0 <= i < j < |t| ==> t[i].vendedor != t[j].vendedor)
            && (forall i, j :: 0 <= i < j < |t| ==> t[i].ventas >= t[j].ventas)
            && forall i :: 0 <= i < |t| ==>
                 && t[i].ventas == SumWhere(sales, SaleVendor, SaleAmount, t[i].vendedor)
                 && t[i].forecast == SumWhere(forecast, ForecastVendor, ForecastAmount, t[i].vendedor)
  {
    var a := GroupSum(sales, SaleVendor, SaleAmount);
    var b := GroupSum(forecast, ForecastVendor, ForecastAmount);
    MergeZeroFill(a, b);
    SortedVendorRows(Merge(a, b));
    VendorRowsDistinct(Merge(a, b));
  }

  /** The merged vendors are distinct, and sorting does not repeat any of them. */
  lemma VendorRowsDistinct(m: seq<Merged>)
    requires StrictlyAscending(m, MergedKey)
    ensures var t := VendorTable(m);
            forall i, j :: 0 <= i < j < |t| ==> t[i].vendedor != t[j].vendedor
  {
    var v := VendorMetrics(m);
    var t := VendorTable(m);
    forall i, j | 0 <= i < j < |v| ensures VendorName(v[i]) != VendorName(v[j]) {
      LexOrder.LessIrreflexive(m[i].key);
    }
    ReorderKeepsKeysDistinct(v, t, VendorName);
  }

  /**
    A vendor that has sales but no forecast in the month gets a zero-filled
    `Forecast`, and its `%` is undefined rather than 0.
   */
  lemma VendorZeroFillLeavesRatioUndefined(sales: seq<SalesRecord>, forecast: seq<ForecastRecord>)
    ensures var t := VendorTable(VendorMerged(sales, forecast));
            forall i :: 0 <= i < |t| && t[i].vendedor !in KeysOf(forecast, ForecastVendor) ==>
              t[i].forecast == 0 && t[i].pct == None
  {
    var a := GroupSum(sales, SaleVendor, SaleAmount);
    var b := GroupSum(forecast, ForecastVendor, ForecastAmount);
    var m := Merge(a, b);
    MergeZeroFill(a, b);
    var v := VendorMetrics(m);
    var t := VendorTable(m);
    forall i | 0 <= i < |t| && t[i].vendedor !in KeysOf(forecast, ForecastVendor)
      ensures t[i].forecast == 0 && t[i].pct == None
    {
      assert t[i] in multiset(v);
      var p :| 0 <= p < |v| && v[p] == t[i];
      assert m[p].forecast == Lookup(b, m[p].key);
    }
  }

  /** Sorting keeps every merged vendor row, and invents none. */
  lemma SortedVendorRows(m: seq<Merged>)
    ensures var t := VendorTable(m);
            && KeysOf(t, VendorName) == KeysOf(m, MergedKey)
            && forall i :: 0 <= i < |t| ==>
                 exists j :: 0 <= j < |m| && t[i].vendedor == m[j].key && t[i].ventas == m[j].ventas
                                          && t[i].forecast == m[j].forecast
  {
    SortedRowsComeFromMerged(m);
    MergedKeysSurviveSort(m);
  }

  lemma SortedRowsComeFromMerged(m: seq<Merged>)
    ensures var t := VendorTable(m);
            && KeysOf(t, VendorName) <= KeysOf(m, MergedKey)
            && forall i :: 0 <= i < |t| ==>
                 exists j :: 0 <= j < |m| && t[i].vendedor == m[j].key && t[i].ventas == m[j].ventas
                                          && t[i].forecast == m[j].forecast
  {
    var v := VendorMetrics(m);
    var t := VendorTable(m);
    forall i | 0 <= i < |t|
      ensures exists j :: 0 <= j < |m| && t[i].vendedor == m[j].key && t[i].ventas == m[j].ventas
                                       && t[i].forecast == m[j].forecast
    {
      assert t[i] in multiset(v);
      var j :| 0 <= j < |v| && v[j] == t[i];
      assert m[j].key == t[i].vendedor;
    }
    forall k | k in KeysOf(t, VendorName) ensures k in KeysOf(m, MergedKey) {
      var i :| 0 <= i < |t| && t[i].vendedor == k;
      var j :| 0 <= j < |m| && t[i].vendedor == m[j].key;
      assert m[j] in m;
    }
  }

  lemma MergedKeysSurviveSort(m: seq<Merged>)
    ensures KeysOf(m, MergedKey) <= KeysOf(VendorTable(m), VendorName)
  {
    var v := VendorMetrics(m);
    var t := VendorTable(m);
    forall k | k in KeysOf(m, MergedKey) ensures k in KeysOf(t, VendorName) {
      var x :| x in m && x.key == k;
      var j :| 0 <= j < |m| && m[j] == x;
      assert v[j] in multiset(t);
      var i :| 0 <= i < |t| && t[i] == v[j];
    }
  }
}
