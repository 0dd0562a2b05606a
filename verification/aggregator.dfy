/**
  `df.groupby(col)[value].sum().reset_index()`: one row per distinct key,
  keys in ascending lexicographic order, each carrying the sum of its rows.
 */
module Aggregator {
  import opened LexOrder
  import opened Seqs

  datatype AggRow = AggRow(key: string, value: int)

  function AggKey(r: AggRow): string { r.key }

  function AggValue(r: AggRow): int { r.value }

  /** A grouped result: one row per key, keys in the order the library lists them. */
  type Aggregate = s: seq<AggRow> | StrictlyAscending(s, AggKey) witness []

  /** The aggregated value under key `k`, and 0 for a key that has no row. */
  function Lookup(s: Aggregate, k: string): (v: int)
    ensures k !in KeysOf(s, AggKey) ==> v == 0
    ensures forall i :: 0 <= i < |s| && s[i].key == k ==> v == s[i].value
  {
    if s == [] then 0
    else if s[0].key == k then
      assert forall i :: 0 < i < |s| ==> s[i].key != k by {
        forall i | 0 < i < |s| ensures s[i].key != k {
          KeyAfterHead(s, AggKey, i);
        }
      }
      s[0].value
    else
      TailKeys(s, AggKey);
      Lookup(s[1..], k)
  }

  /** Folds one row `(k, v)` into a grouped result. */
  function AddTo(agg: Aggregate, k: string, v: int): (r: Aggregate)
    ensures KeysOf(r, AggKey) == KeysOf(agg, AggKey) + {k}
  {
    if agg == [] then
      KeysOfCons(AggRow(k, v), [], AggKey);
      [AggRow(k, v)]
    else
      var head := agg[0];
      TailKeys(agg, AggKey);
      if head.key == k then
        var r := [AggRow(k, head.value + v)] + agg[1..];
        KeepHead(r[0], agg[1..], AggKey);
        KeysOfCons(r[0], agg[1..], AggKey);
        r
      else if Less(k, head.key) then
        BelowAll(agg, AggKey, k);
        var r := [AggRow(k, v)] + agg;
        KeepHead(r[0], agg, AggKey);
        KeysOfCons(r[0], agg, AggKey);
        r
      else
        var rest := AddTo(agg[1..], k, v);
        LessTrichotomous(k, head.key);
        KeepHead(head, rest, AggKey);
        KeysOfCons(head, rest, AggKey);
        [head] + rest
  }

  /** Folding in `(k, v)` adds `v` to key `k`'s value and to the total, and leaves other keys alone. */
  lemma {:induction false} AddToAdds(agg: Aggregate, k: string, v: int)
    ensures forall k' :: Lookup(AddTo(agg, k, v), k') == Lookup(agg, k') + (if k' == k then v else 0)
    ensures SumOf(AddTo(agg, k, v), AggValue) == SumOf(agg, AggValue) + v
  {
    if agg != [] {
      var head := agg[0];
      if head.key == k {
        var r := AddTo(agg, k, v);
        assert r[1..] == agg[1..];
        forall k' ensures Lookup(r, k') == Lookup(agg, k') + (if k' == k then v else 0) {
          if k' != k {
            LookupTail(agg, k');
            LookupTail(r, k');
          }
        }
      } else if Less(k, head.key) {
        BelowAll(agg, AggKey, k);
        var r := AddTo(agg, k, v);
        assert r[1..] == agg;
        forall k' ensures Lookup(r, k') == Lookup(agg, k') + (if k' == k then v else 0) {
          if k' != k {
            LookupTail(r, k');
          }
        }
      } else {
        AddToAdds(agg[1..], k, v);
        LessTrichotomous(k, head.key);
        var r := AddTo(agg, k, v);
        assert r == [head] + AddTo(agg[1..], k, v);
        assert r[1..] == AddTo(agg[1..], k, v);
        forall k' ensures Lookup(AddTo(agg, k, v), k') == Lookup(agg, k') + (if k' == k then v else 0) {
          if k' != head.key {
            LookupTail(agg, k');
            LookupTail(AddTo(agg, k, v), k');
          }
        }
      }
    }
  }

  /** Lookup past a first row whose key differs. */
  lemma LookupTail(s: Aggregate, k: string)
    requires s != [] && s[0].key != k
    ensures Lookup(s, k) == Lookup(s[1..], k)
  {
  }

  /** The sum of `val` over the rows whose key is `k`. */
  function SumWhere<T>(s: seq<T>, key: T -> string, val: T -> int, k: string): int {
    if s == [] then 0
    else (if key(s[0]) == k then val(s[0]) else 0) + SumWhere(s[1..], key, val, k)
  }

  /**
    Group-by-sum: the keys are exactly the values of the grouping column, and
    each key carries the sum of its rows' values. Nothing is lost: the group
    values add up to the ungrouped column sum.
   */
  function GroupSum<T>(s: seq<T>, key: T -> string, val: T -> int): (r: Aggregate)
    ensures KeysOf(r, AggKey) == KeysOf(s, key)
    ensures forall k :: Lookup(r, k) == SumWhere(s, key, val, k)
    ensures SumOf(r, AggValue) == SumOf(s, val)
  {
    if s == [] then []
    else
      assert s == [s[0]] + s[1..];
      KeysOfCons(s[0], s[1..], key);
      var rest := GroupSum(s[1..], key, val);
      AddToAdds(rest, key(s[0]), val(s[0]));
      AddTo(rest, key(s[0]), val(s[0]))
  }
}
