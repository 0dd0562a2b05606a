/**
  Lexicographic order on strings by code point, the order in which the
  dataframe library lists grouping keys and outer-merge keys.
 */
module LexOrder {
  import opened Seqs

  /** `a` sorts strictly before `b`: a proper prefix, or smaller at the first difference. */
  predicate Less(a: string, b: string)
    decreases |a|
  {
    if |a| == 0 then |b| > 0
    else if |b| == 0 then false
    else if a[0] < b[0] then true
    else if a[0] == b[0] then Less(a[1..], b[1..])
    else false
  }

  lemma {:induction false} LessIrreflexive(a: string)
    ensures !Less(a, a)
    decreases |a|
  {
    if |a| > 0 {
      LessIrreflexive(a[1..]);
    }
  }

  lemma {:induction false} LessTransitive(a: string, b: string, c: string)
    requires Less(a, b) && Less(b, c)
    ensures Less(a, c)
    decreases |a|
  {
    if |a| > 0 && a[0] == b[0] && b[0] == c[0] {
      LessTransitive(a[1..], b[1..], c[1..]);
    }
  }

  lemma {:induction false} LessAsymmetric(a: string, b: string)
    ensures !(Less(a, b) && Less(b, a))
    decreases |a|
  {
    if |a| > 0 && |b| > 0 && a[0] == b[0] {
      LessAsymmetric(a[1..], b[1..]);
    }
  }

  /** Any two distinct strings are ordered one way or the other. */
  lemma {:induction false} LessTrichotomous(a: string, b: string)
    ensures Less(a, b) || a == b || Less(b, a)
    decreases |a|
  {
    if |a| > 0 && |b| > 0 && a[0] == b[0] {
      LessTrichotomous(a[1..], b[1..]);
      assert a == [a[0]] + a[1..];
      assert b == [b[0]] + b[1..];
    }
  }

  /** Keys strictly ascending, hence also pairwise distinct: how grouped and merged tables list their keys. */
  ghost predicate StrictlyAscending<T>(s: seq<T>, key: T -> string) {
    forall i, j :: 0 <= i < j < |s| ==> Less(key(s[i]), key(s[j]))
  }

  /** A key below the first key of an ascending sequence is below all its keys, hence not among them. */
  lemma BelowAll<T>(s: seq<T>, key: T -> string, k: string)
    requires StrictlyAscending(s, key)
    requires s != [] ==> Less(k, key(s[0]))
    ensures forall k' :: k' in KeysOf(s, key) ==> Less(k, k')
    ensures k !in KeysOf(s, key)
  {
    forall k' | k' in KeysOf(s, key) ensures Less(k, k') {
      var i :| 0 <= i < |s| && key(s[i]) == k';
      if i > 0 {
        LessTransitive(k, key(s[0]), k');
      }
    }
    LessIrreflexive(k);
  }

  /** A row whose key is below every key of an ascending sequence can go in front of it. */
  lemma KeepHead<T>(head: T, rest: seq<T>, key: T -> string)
    requires StrictlyAscending(rest, key)
    requires forall k :: k in KeysOf(rest, key) ==> Less(key(head), k)
    ensures StrictlyAscending([head] + rest, key)
  {
    var s := [head] + rest;
    forall j | 0 < j < |s| ensures Less(key(head), key(s[j])) {
      assert s[j] == rest[j - 1];
    }
  }

  /** The first key of an ascending sequence is below all later keys. */
  lemma TailKeys<T>(s: seq<T>, key: T -> string)
    requires StrictlyAscending(s, key)
    requires s != []
    ensures KeysOf(s, key) == {key(s[0])} + KeysOf(s[1..], key)
    ensures forall k' :: k' in KeysOf(s[1..], key) ==> Less(key(s[0]), k')
  {
    assert s == [s[0]] + s[1..];
    KeysOfCons(s[0], s[1..], key);
    forall k' | k' in KeysOf(s[1..], key) ensures Less(key(s[0]), k') {
      var i :| 0 <= i < |s[1..]| && key(s[1..][i]) == k';
      assert s[1..][i] == s[i + 1];
    }
  }

  /** In an ascending sequence no later row repeats the first row's key. */
  lemma KeyAfterHead<T>(s: seq<T>, key: T -> string, i: int)
    requires StrictlyAscending(s, key)
    requires 0 < i < |s|
    ensures key(s[i]) != key(s[0])
  {
    LessIrreflexive(key(s[0]));
  }
}
