/**
  Selection of one reporting month: the months the selector offers, and the
  sales and forecast rows of the chosen month.
 */
module PeriodFilter {
  import opened Records
  import opened Seqs

  /** Some sales row falls in month `m`. */
  predicate HasSalesIn(sales: seq<SalesRecord>, m: int) {
    exists i :: 0 <= i < |sales| && sales[i].mes == m
  }

  /** The months from `m` to 12 that occur in `sales`, ascending. */
  function MonthsFrom(sales: seq<SalesRecord>, m: int): (r: seq<Month>)
    requires 1 <= m <= 13
    decreases 13 - m
    ensures forall i, j :: 0 <= i < j < |r| ==> r[i] < r[j]
    ensures forall x :: x in r <==> m <= x && HasSalesIn(sales, x)
  {
    if m == 13 then []
    else
      var rest := MonthsFrom(sales, m + 1);
      assert forall j :: 0 <= j < |rest| ==> m < rest[j] by {
        forall j | 0 <= j < |rest| ensures m < rest[j] {
          assert rest[j] in rest;
        }
      }
      if HasSalesIn(sales, m) then [m] + rest else rest
  }

  /**
    The month selector's options, the distinct sorted months of the sales table: each month of
    the sales table exactly once, in ascending order.
   */
  function AvailableMonths(sales: seq<SalesRecord>): (r: seq<Month>)
    ensures forall i, j :: 0 <= i < j < |r| ==> r[i] < r[j]
    ensures forall x :: x in r <==> HasSalesIn(sales, x)
  {
    MonthsFrom(sales, 1)
  }

  /** The sales rows of month `m`, in table order. */
  function FilterSales(sales: seq<SalesRecord>, m: int): (r: seq<SalesRecord>)
    ensures IsSubseq(r, sales)
    ensures forall i :: 0 <= i < |r| ==> r[i].mes == m
    ensures forall x :: multiset(r)[x] == if x.mes == m then multiset(sales)[x] else 0
    ensures r == [] <==> !HasSalesIn(sales, m)
  {
    Where(sales, (s: SalesRecord) => s.mes == m)
  }

  /** The forecast rows of month `m`, in table order. */
  function FilterForecast(forecast: seq<ForecastRecord>, m: int): (r: seq<ForecastRecord>)
    ensures IsSubseq(r, forecast)
    ensures forall i :: 0 <= i < |r| ==> r[i].mes == m
    ensures forall x :: multiset(r)[x] == if x.mes == m then multiset(forecast)[x] else 0
    ensures r == [] <==> forall i :: 0 <= i < |forecast| ==> forecast[i].mes != m
  {
    Where(forecast, (f: ForecastRecord) => f.mes == m)
  }
}
