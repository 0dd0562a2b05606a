/**
  `pd.merge(actual, forecast, on=key, how='outer').fillna(0)`: one row per key
  of either grouped result, keys ascending, a missing side read as 0.
 */
module Reconciler {
  import opened LexOrder
  import opened Seqs
  import opened Aggregator

  /** A row of the merged table: columns key, `Ventas`, `Forecast`. */
  datatype Merged = Merged(key: string, ventas: int, forecast: int)

  function MergedKey(m: Merged): string { m.key }

  function MergedVentas(m: Merged): int { m.ventas }

  function MergedForecast(m: Merged): int { m.forecast }

  /**
    Full outer merge with zero fill. The keys are the union of both sides',
    one row each, ascending; each side's column holds that side's aggregated
    value, or 0 when the key is absent from it.
   */
  function Merge(a: Aggregate, b: Aggregate): (r: seq<Merged>)
    decreases |a| + |b|
    ensures StrictlyAscending(r, MergedKey)
    ensures KeysOf(r, MergedKey) == KeysOf(a, AggKey) + KeysOf(b, AggKey)
  {
    if a == [] && b == [] then []
    else if b == [] || (a != [] && Less(a[0].key, b[0].key)) then
      TailKeys(a, AggKey);
      BelowAll(b, AggKey, a[0].key);
      var rest := Merge(a[1..], b);
      var head := Merged(a[0].key, a[0].value, 0);
      KeepHead(head, rest, MergedKey);
      KeysOfCons(head, rest, MergedKey);
      [head] + rest
    else if a == [] || Less(b[0].key, a[0].key) then
      TailKeys(b, AggKey);
      BelowAll(a, AggKey, b[0].key);
      var rest := Merge(a, b[1..]);
      var head := Merged(b[0].key, 0, b[0].value);
      KeepHead(head, rest, MergedKey);
      KeysOfCons(head, rest, MergedKey);
      [head] + rest
    else
      LessTrichotomous(a[0].key, b[0].key);
      TailKeys(a, AggKey);
      TailKeys(b, AggKey);
      var rest := Merge(a[1..], b[1..]);
      var head := Merged(a[0].key, a[0].value, b[0].value);
      KeepHead(head, rest, MergedKey);
      KeysOfCons(head, rest, MergedKey);
      [head] + rest
  }

  /**
    `fillna(0)`: a side that has the key contributes its aggregated value,
    a side that lacks it contributes 0.
   */
  lemma {:induction false} MergeZeroFill(a: Aggregate, b: Aggregate)
    decreases |a| + |b|, 1
    ensures forall i :: 0 <= i < |Merge(a, b)| ==>
      && Merge(a, b)[i].ventas == Lookup(a, Merge(a, b)[i].key)
      && Merge(a, b)[i].forecast == Lookup(b, Merge(a, b)[i].key)
  {
    if a == [] && b == [] {
    } else if b == [] || (a != [] && Less(a[0].key, b[0].key)) {
      ZeroFillActualFirst(a, b);
    } else if a == [] || Less(b[0].key, a[0].key) {
      ZeroFillForecastFirst(a, b);
    } else {
      LessTrichotomous(a[0].key, b[0].key);
      ZeroFillBothFirst(a, b);
    }
  }

  /** `MergeZeroFill` when the smallest key is only on the actual side. */
  lemma {:induction false} ZeroFillActualFirst(a: Aggregate, b: Aggregate)
    requires a != [] && (b == [] || Less(a[0].key, b[0].key))
    decreases |a| + |b|, 0
    ensures forall i :: 0 <= i < |Merge(a, b)| ==>
      && Merge(a, b)[i].ventas == Lookup(a, Merge(a, b)[i].key)
      && Merge(a, b)[i].forecast == Lookup(b, Merge(a, b)[i].key)
  {
    var r := Merge(a, b);
    BelowAll(b, AggKey, a[0].key);
    var rest := Merge(a[1..], b);
    assert r == [r[0]] + rest;
    MergeZeroFill(a[1..], b);
    forall i | 0 < i < |r|
      ensures r[i].ventas == Lookup(a, r[i].key) && r[i].forecast == Lookup(b, r[i].key)
    {
      KeyAfterHead(r, MergedKey, i);
      assert r[i] == rest[i - 1];
      LookupTail(a, r[i].key);
    }
  }

  /** `MergeZeroFill` when the smallest key is only on the forecast side. */
  lemma {:induction false} ZeroFillForecastFirst(a: Aggregate, b: Aggregate)
    requires b != [] && (a == [] || Less(b[0].key, a[0].key))
    decreases |a| + |b|, 0
    ensures forall i :: 0 <= i < |Merge(a, b)| ==>
      && Merge(a, b)[i].ventas == Lookup(a, Merge(a, b)[i].key)
      && Merge(a, b)[i].forecast == Lookup(b, Merge(a, b)[i].key)
  {
    var r := Merge(a, b);
    if a != [] {
      LessAsymmetric(a[0].key, b[0].key);
    }
    BelowAll(a, AggKey, b[0].key);
    var rest := Merge(a, b[1..]);
    assert r == [r[0]] + rest;
    MergeZeroFill(a, b[1..]);
    forall i | 0 < i < |r|
      ensures r[i].ventas == Lookup(a, r[i].key) && r[i].forecast == Lookup(b, r[i].key)
    {
      KeyAfterHead(r, MergedKey, i);
      assert r[i] == rest[i - 1];
      LookupTail(b, r[i].key);
    }
  }

  /** `MergeZeroFill` when both sides start with the same key. */
  lemma {:induction false} ZeroFillBothFirst(a: Aggregate, b: Aggregate)
    requires a != [] && b != [] && a[0].key == b[0].key
    decreases |a| + |b|, 0
    ensures forall i :: 0 <= i < |Merge(a, b)| ==>
      && Merge(a, b)[i].ventas == Lookup(a, Merge(a, b)[i].key)
      && Merge(a, b)[i].forecast == Lookup(b, Merge(a, b)[i].key)
  {
    var r := Merge(a, b);
    LessIrreflexive(a[0].key);
    var rest := Merge(a[1..], b[1..]);
    assert r == [r[0]] + rest;
    MergeZeroFill(a[1..], b[1..]);
    forall i | 0 < i < |r|
      ensures r[i].ventas == Lookup(a, r[i].key) && r[i].forecast == Lookup(b, r[i].key)
    {
      KeyAfterHead(r, MergedKey, i);
      assert r[i] == rest[i - 1];
      LookupTail(a, r[i].key);
      LookupTail(b, r[i].key);
    }
  }

  /**
    Merging loses and invents nothing: the `Ventas` column adds up to the
    actual aggregate's total and the `Forecast` column to the forecast's.
   */
  lemma {:induction false} MergeTotals(a: Aggregate, b: Aggregate)
    decreases |a| + |b|
    ensures SumOf(Merge(a, b), MergedVentas) == SumOf(a, AggValue)
    ensures SumOf(Merge(a, b), MergedForecast) == SumOf(b, AggValue)
  {
    if a == [] && b == [] {
    } else if b == [] || (a != [] && Less(a[0].key, b[0].key)) {
      MergeTotals(a[1..], b);
    } else if a == [] || Less(b[0].key, a[0].key) {
      MergeTotals(a, b[1..]);
    } else {
      MergeTotals(a[1..], b[1..]);
    }
  }

  /** The same row with its two value columns exchanged. */
  function Swap(m: Merged): Merged {
    Merged(m.key, m.forecast, m.ventas)
  }

  function SwapAll(r: seq<Merged>): (s: seq<Merged>)
    ensures |s| == |r|
    ensures forall i :: 0 <= i < |r| ==> s[i] == Swap(r[i])
  {
    if r == [] then [] else [Swap(r[0])] + SwapAll(r[1..])
  }

  /**
    The outer merge treats both sides alike: exchanging the inputs yields the
    same keys in the same order with the two columns exchanged.
   */
  lemma {:induction false} MergeSymmetric(a: Aggregate, b: Aggregate)
    decreases |a| + |b|
    ensures Merge(b, a) == SwapAll(Merge(a, b))
  {
    if a == [] && b == [] {
    } else if b == [] || (a != [] && Less(a[0].key, b[0].key)) {
      if b != [] {
        LessAsymmetric(a[0].key, b[0].key);
        LessIrreflexive(a[0].key);
      }
      MergeSymmetric(a[1..], b);
    } else if a == [] || Less(b[0].key, a[0].key) {
      if a != [] {
        LessAsymmetric(a[0].key, b[0].key);
        LessIrreflexive(b[0].key);
      }
      MergeSymmetric(a, b[1..]);
    } else {
      LessTrichotomous(a[0].key, b[0].key);
      MergeSymmetric(a[1..], b[1..]);
    }
  }
}
