/** Worked cases of the report on small inputs. */
module Scenarios {
  import opened Wrappers
  import opened Records
  import opened Normalizer
  import opened Metrics
  import opened Report
  import LexOrder
  import PeriodFilter
  import Aggregator
  import Reconciler
  import Totals
  import Seqs

  /** A raw sale of -500 dated 2024-03-15 becomes a March sale of 500. */
  lemma NormalizeMarchSale()
    ensures Normalize(RawSale(Date(2024, 3, 15), "A", "Ana", -500), 0)
         == Success(SalesRecord(Date(2024, 3, 15), 3, "A", "Ana", 500))
  {
  }

  /** An unparseable date (February 30th) aborts the load at that row. */
  lemma MalformedDateAborts()
    ensures NormalizeAll([RawSale(Date(2024, 3, 15), "A", "Ana", -500),
                          RawSale(Date(2024, 2, 30), "A", "Ana", -1)])
         == Failure(MalformedDate(1))
  {
    assert !ValidDate(Date(2024, 2, 30));
  }

  /** Sales only in segment "A", forecast only in segment "B", both in March. */
  const SalesInA: seq<SalesRecord> := [SalesRecord(Date(2024, 3, 1), 3, "A", "V", 100)]
  const ForecastInB: seq<ForecastRecord> := [ForecastRecord(3, "B", "V", "OV1", "C1", 50, "No")]

  /**
    With sales only in "A" and forecast only in "B", both segments appear,
    each zero-filled on its missing side, and sales are 200% of forecast.
   */
  lemma DisjointSegments()
    ensures var r := BuildReport(SalesInA, ForecastInB, 3);
            && r.totalVentas == 100
            && r.totalForecast == 50
            && r.porcentVentas == 200.0
            && |r.segmentTable| == 2
            && r.segmentTable[0].segmento == "A"
            && r.segmentTable[0].ventas == 100 && r.segmentTable[0].forecast == 0
            && r.segmentTable[0].ventasVsForecast == None
            && r.segmentTable[1].segmento == "B"
            && r.segmentTable[1].ventas == 0 && r.segmentTable[1].forecast == 50
            && r.segmentTable[1].pctForecast == Some(100.0)
  {
    DisjointSegmentsHeadline();
    var m := DisjointSegmentsTable();
    assert Percent(50, 50) == Some(100.0);
  }

  /** The headline figures of the scenario: 100 sold against 50 planned is 200%. */
  lemma DisjointSegmentsHeadline()
    ensures var r := BuildReport(SalesInA, ForecastInB, 3);
            && r.totalVentas == 100
            && r.totalForecast == 50
            && r.porcentVentas == 200.0
  {
    var m := DisjointSegmentsMerged(SalesInA, ForecastInB);
    assert PeriodFilter.FilterSales(SalesInA, 3) == SalesInA;
    assert PeriodFilter.FilterForecast(ForecastInB, 3) == ForecastInB;
    assert Totals.OverallPercent(100, 50) == 200.0;
  }

  /** The segment table of the scenario is computed from both merged rows. */
  lemma DisjointSegmentsTable() returns (m: seq<Reconciler.Merged>)
    ensures m == [Reconciler.Merged("A", 100, 0), Reconciler.Merged("B", 0, 50)]
    ensures Seqs.SumOf(m, Reconciler.MergedForecast) == 50
    ensures BuildReport(SalesInA, ForecastInB, 3).segmentTable == SegmentMetrics(m)
  {
    m := DisjointSegmentsMerged(SalesInA, ForecastInB);
    assert PeriodFilter.FilterSales(SalesInA, 3) == SalesInA;
    assert PeriodFilter.FilterForecast(ForecastInB, 3) == ForecastInB;
  }

  /** The merged segment rows of the scenario above. */
  lemma DisjointSegmentsMerged(sales: seq<SalesRecord>, forecast: seq<ForecastRecord>) returns (m: seq<Reconciler.Merged>)
    requires sales == [SalesRecord(Date(2024, 3, 1), 3, "A", "V", 100)]
    requires forecast == [ForecastRecord(3, "B", "V", "OV1", "C1", 50, "No")]
    ensures m == SegmentMerged(sales, forecast)
    ensures m == [Reconciler.Merged("A", 100, 0), Reconciler.Merged("B", 0, 50)]
    ensures Seqs.SumOf(m, Reconciler.MergedForecast) == 50
    ensures Totals.TotalVentas(sales) == 100 && Totals.TotalForecast(forecast) == 50
  {
    var a := Aggregator.GroupSum(sales, SaleSegment, SaleAmount);
    var b := Aggregator.GroupSum(forecast, ForecastSegment, ForecastAmount);
    var none: Aggregator.Aggregate := [];
    assert sales[1..] == [] && forecast[1..] == [];
    assert Aggregator.GroupSum(sales[1..], SaleSegment, SaleAmount) == none;
    assert Aggregator.GroupSum(forecast[1..], ForecastSegment, ForecastAmount) == none;
    assert SaleSegment(sales[0]) == "A" && SaleAmount(sales[0]) == 100;
    assert ForecastSegment(forecast[0]) == "B" && ForecastAmount(forecast[0]) == 50;
    assert a == Aggregator.AddTo(none, "A", 100) == [Aggregator.AggRow("A", 100)];
    assert b == Aggregator.AddTo(none, "B", 50) == [Aggregator.AggRow("B", 50)];
    assert LexOrder.Less("A", "B");
    assert a[1..] == none && b[1..] == none;
    assert Reconciler.Merge(none, b) == [Reconciler.Merged("B", 0, 50)];
    m := Reconciler.Merge(a, b);
    Reconciler.MergeTotals(a, b);
  }
}
