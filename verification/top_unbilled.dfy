/**
  "Top 5 No Facturados": the month's forecast rows not yet billed, largest
  `Monto_euro` first, at most five of them.
 */
module TopN {
  import opened Records
  import opened Seqs

  /** The billing flag value of a row not yet invoiced. */
  const NotBilled: string := "No"

  /** How many rows the table shows. */
  const TopCount: nat := 5

  predicate IsUnbilled(f: ForecastRecord) {
    f.facturado == NotBilled
  }

  /** The rows whose billing flag is exactly "No", in table order. */
  function Unbilled(forecast: seq<ForecastRecord>): (r: seq<ForecastRecord>)
    ensures forall i :: 0 <= i < |r| ==> r[i].facturado == NotBilled
    ensures forall x :: multiset(r)[x] == if x.facturado == NotBilled then multiset(forecast)[x] else 0
  {
    Where(forecast, IsUnbilled)
  }

  /**
    The unbilled rows sorted by amount, largest first, cut to `n` rows: only
    unbilled rows, `n` of them or all when fewer qualify, and no qualifying
    row left out is larger than the last one shown.
   */
  function TopUnbilled(forecast: seq<ForecastRecord>, n: nat): (r: seq<ForecastRecord>)
    ensures forall i :: 0 <= i < |r| ==> r[i].facturado == NotBilled
    ensures NonIncreasing(r, ForecastAmount)
    ensures |r| == if n < |Unbilled(forecast)| then n else |Unbilled(forecast)|
    ensures multiset(r) <= multiset(Unbilled(forecast))
    ensures forall x | x in multiset(Unbilled(forecast)) - multiset(r) ::
      |r| == n && (n > 0 ==> x.montoEuro <= r[n - 1].montoEuro)
  {
    var u := Unbilled(forecast);
    var sorted := SortDesc(u, ForecastAmount);
    var r := Head(sorted, n);
    HeadOfDescending(sorted, n);
    OnlyUnbilled(u, r);
    r
  }

  /**
    The head of a descending sequence is descending, and whatever it leaves
    behind scores no more than its last element.
   */
  lemma HeadOfDescending(sorted: seq<ForecastRecord>, n: nat)
    requires NonIncreasing(sorted, ForecastAmount)
    ensures NonIncreasing(Head(sorted, n), ForecastAmount)
    ensures forall x | x in multiset(sorted) - multiset(Head(sorted, n)) ::
      |Head(sorted, n)| == n && (n > 0 ==> x.montoEuro <= Head(sorted, n)[n - 1].montoEuro)
    ensures multiset(Head(sorted, n)) <= multiset(sorted)
  {
    var r := Head(sorted, n);
    forall i, j | 0 <= i < j < |r| ensures r[i].montoEuro >= r[j].montoEuro {
      assert r[i] == sorted[i] && r[j] == sorted[j];
    }
    SplitMultiset(sorted, |r|);
    BehindCutNoLarger(sorted, |r|);
  }

  /** In a descending sequence every row behind a cut scores no more than the last row before it. */
  lemma BehindCutNoLarger(sorted: seq<ForecastRecord>, k: nat)
    requires NonIncreasing(sorted, ForecastAmount)
    requires k <= |sorted|
    ensures forall x | x in multiset(sorted[k..]) :: k < |sorted| && (k > 0 ==> x.montoEuro <= sorted[k - 1].montoEuro)
  {
    forall x | x in multiset(sorted[k..])
      ensures k < |sorted| && (k > 0 ==> x.montoEuro <= sorted[k - 1].montoEuro)
    {
      var j :| 0 <= j < |sorted[k..]| && sorted[k..][j] == x;
      assert sorted[k + j] == x;
    }
  }

  lemma OnlyUnbilled(u: seq<ForecastRecord>, r: seq<ForecastRecord>)
    requires forall i :: 0 <= i < |u| ==> u[i].facturado == NotBilled
    requires multiset(r) <= multiset(u)
    ensures forall i :: 0 <= i < |r| ==> r[i].facturado == NotBilled
  {
    forall i | 0 <= i < |r| ensures r[i].facturado == NotBilled {
      assert r[i] in multiset(u);
    }
  }

  /** Fewer qualifying rows than requested is not an error: all of them are returned. */
  lemma ShortfallReturnsAll(forecast: seq<ForecastRecord>, n: nat)
    requires |Unbilled(forecast)| <= n
    ensures multiset(TopUnbilled(forecast, n)) == multiset(Unbilled(forecast))
  {
    var r := TopUnbilled(forecast, n);
    var u := Unbilled(forecast);
    assert |multiset(r)| == |multiset(u)|;
    var d := multiset(u) - multiset(r);
    assert |multiset(u)| == |multiset(r)| + |d|;
  }
}
