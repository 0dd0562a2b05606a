/**
  Generic sequence operations the report is built from: row selection,
  column sums and a descending sort by a numeric column.
 */
module Seqs {

  /** `a` is obtained from `b` by deleting elements, keeping the order of the rest. */
  ghost predicate IsSubseq<T>(a: seq<T>, b: seq<T>)
    decreases |b|
  {
    if a == [] then true
    else if b == [] then false
    else (a[0] == b[0] && IsSubseq(a[1..], b[1..])) || IsSubseq(a, b[1..])
  }

  /**
    Boolean row selection `df[mask]`: the rows satisfying `p`, in their original
    order, each as often as it occurs in `s`.
   */
  function Where<T(==,!new)>(s: seq<T>, p: T -> bool): (r: seq<T>)
    ensures IsSubseq(r, s)
    ensures forall i :: 0 <= i < |r| ==> p(r[i])
    ensures forall x :: multiset(r)[x] == if p(x) then multiset(s)[x] else 0
  {
    if s == [] then []
    else
      var rest := Where(s[1..], p);
      assert s == [s[0]] + s[1..];
      if p(s[0]) then [s[0]] + rest else rest
  }

  /** Column sum `df[col].sum()`; the sum of no rows is 0. */
  function SumOf<T>(s: seq<T>, f: T -> int): int
  {
    if s == [] then 0 else f(s[0]) + SumOf(s[1..], f)
  }

  /** The distinct values of a key column: `df[col].unique()` as a set. */
  function KeysOf<T>(s: seq<T>, key: T -> string): set<string> {
    set i | 0 <= i < |s| :: key(s[i])
  }

  lemma KeysOfCons<T>(head: T, rest: seq<T>, key: T -> string)
    ensures KeysOf([head] + rest, key) == {key(head)} + KeysOf(rest, key)
  {
    var s := [head] + rest;
    forall k | k in KeysOf(rest, key) ensures k in KeysOf(s, key) {
      var i :| 0 <= i < |rest| && key(rest[i]) == k;
      assert s[i + 1] == rest[i];
    }
    assert s[0] == head;
  }

  /** Every row scores at least as much as every row after it. */
  ghost predicate NonIncreasing<T>(s: seq<T>, score: T -> int)
  {
    forall i, j :: 0 <= i < j < |s| ==> score(s[i]) >= score(s[j])
  }

  /** Inserts `x` into a descending sequence, keeping it descending. */
  function InsertDesc<T(==)>(x: T, s: seq<T>, score: T -> int): (r: seq<T>)
    requires NonIncreasing(s, score)
    ensures NonIncreasing(r, score)
    ensures multiset(r) == multiset(s) + multiset{x}
  {
    if s == [] then [x]
    else if score(x) >= score(s[0]) then [x] + s
    else
      var rest := InsertDesc(x, s[1..], score);
      assert s == [s[0]] + s[1..];
      assert forall j :: 0 <= j < |rest| ==> score(rest[j]) <= score(s[0]) by {
        forall j | 0 <= j < |rest|
          ensures score(rest[j]) <= score(s[0])
        {
          assert rest[j] in multiset(rest);
          if rest[j] != x {
            assert rest[j] in multiset(s[1..]);
          }
        }
      }
      [s[0]] + rest
  }

  /**
    `sort_values(by=col, ascending=False)`: a reordering of `s` that is
    non-increasing in `score`. The order among equal scores is not specified.
   */
  function SortDesc<T(==)>(s: seq<T>, score: T -> int): (r: seq<T>)
    ensures NonIncreasing(r, score)
    ensures multiset(r) == multiset(s)
  {
    if s == [] then []
    else
      assert s == [s[0]] + s[1..];
      InsertDesc(s[0], SortDesc(s[1..], score), score)
  }

  /** Cutting `s` at `k` splits its multiset: the rows behind the cut are exactly those not in front. */
  lemma SplitMultiset<T>(s: seq<T>, k: nat)
    requires k <= |s|
    ensures multiset(s[..k]) <= multiset(s)
    ensures multiset(s) - multiset(s[..k]) == multiset(s[k..])
  {
    assert s == s[..k] + s[k..];
  }

  /** When no two rows share a key, no row occurs twice. */
  lemma {:induction false} AtMostOnce<T, K>(s: seq<T>, key: T -> K, x: T)
    requires forall i, j :: 0 <= i < j < |s| ==> key(s[i]) != key(s[j])
    ensures multiset(s)[x] <= 1
  {
    if s != [] {
      assert s == [s[0]] + s[1..];
      AtMostOnce(s[1..], key, x);
      if s[0] == x {
        assert x !in s[1..] by {
          forall j | 0 <= j < |s[1..]| ensures s[1..][j] != x {
            assert key(s[1 + j]) != key(s[0]);
          }
        }
      }
    }
  }

  /** A row found at two positions is counted at least twice. */
  lemma RepeatCountsTwice<T>(s: seq<T>, i: int, j: int)
    requires 0 <= i < j < |s|
    ensures s[i] == s[j] ==> multiset(s)[s[i]] >= 2
  {
    assert s == s[..j] + s[j..];
    assert s[i] == s[..j][i];
    assert s[j] == s[j..][0];
  }

  /** A reordering of rows with pairwise distinct keys has pairwise distinct keys. */
  lemma ReorderKeepsKeysDistinct<T, K>(s: seq<T>, t: seq<T>, key: T -> K)
    requires multiset(t) == multiset(s)
    requires forall i, j :: 0 <= i < j < |s| ==> key(s[i]) != key(s[j])
    ensures forall i, j :: 0 <= i < j < |t| ==> key(t[i]) != key(t[j])
  {
    forall i, j | 0 <= i < j < |t| ensures key(t[i]) != key(t[j]) {
      assert t[i] in multiset(s) && t[j] in multiset(s);
      var p :| 0 <= p < |s| && s[p] == t[i];
      var q :| 0 <= q < |s| && s[q] == t[j];
      AtMostOnce(s, key, t[i]);
      RepeatCountsTwice(t, i, j);
    }
  }

  /** The first `n` rows, or all of them when there are fewer (`df.head(n)`). */
  function Head<T>(s: seq<T>, n: nat): (r: seq<T>)
    ensures |r| == if n < |s| then n else |s|
    ensures r == s[..|r|]
  {
    if n < |s| then s[..n] else s
  }
}
