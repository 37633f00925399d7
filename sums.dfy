/** Totals as the components compute them with `reduce((a, b) => a + b, 0)`
    and `forEach` accumulation, and the fact every chart relies on: summing
    per group and then adding the groups gives the grand total. */
module Sums {
  import opened Seqs

  /** `xs.reduce((a, b) => a + b, 0)` */
  function Sum(xs: seq<int>): int
  {
    if |xs| == 0 then 0 else Sum(xs[..|xs| - 1]) + xs[|xs| - 1]
  }

  /** `s.reduce((acc, x) => acc + amt(x), 0)` */
  function SumBy<T>(s: seq<T>, amt: T -> int): int
  {
    if |s| == 0 then 0 else SumBy(s[..|s| - 1], amt) + amt(s[|s| - 1])
  }

  /** The total of the elements whose key is `k`. */
  function SumWhere<T, K(==)>(s: seq<T>, key: T -> K, k: K, amt: T -> int): int
  {
    if |s| == 0 then 0
    else SumWhere(s[..|s| - 1], key, k, amt) + (if key(s[|s| - 1]) == k then amt(s[|s| - 1]) else 0)
  }

  /** The total of the elements whose key is one of `ks`. */
  function SumWhereIn<T, K(==)>(s: seq<T>, key: T -> K, ks: seq<K>, amt: T -> int): int
  {
    if |s| == 0 then 0
    else SumWhereIn(s[..|s| - 1], key, ks, amt) + (if key(s[|s| - 1]) in ks then amt(s[|s| - 1]) else 0)
  }

  lemma SumSnoc(xs: seq<int>, x: int)
    ensures Sum(xs + [x]) == Sum(xs) + x
  {
    assert (xs + [x])[..|xs|] == xs;
  }

  lemma SumBySnoc<T>(s: seq<T>, x: T, amt: T -> int)
    ensures SumBy(s + [x], amt) == SumBy(s, amt) + amt(x)
  {
    assert (s + [x])[..|s|] == s;
  }

  lemma SumWhereSnoc<T, K>(s: seq<T>, x: T, key: T -> K, k: K, amt: T -> int)
    ensures SumWhere(s + [x], key, k, amt) == SumWhere(s, key, k, amt) + (if key(x) == k then amt(x) else 0)
  {
    assert (s + [x])[..|s|] == s;
  }

  /** Summing an amount over a list equals summing the list of amounts. */
  lemma {:induction false} SumByIsSumOfMap<T>(s: seq<T>, amt: T -> int)
    ensures SumBy(s, amt) == Sum(MapSeq(s, amt))
  {
    if |s| > 0 {
      SumByIsSumOfMap(s[..|s| - 1], amt);
      assert MapSeq(s, amt)[..|s| - 1] == MapSeq(s[..|s| - 1], amt);
    }
  }

  /** Totals add up over concatenation. */
  lemma {:induction false} SumByAppend<T>(a: seq<T>, b: seq<T>, amt: T -> int)
    ensures SumBy(a + b, amt) == SumBy(a, amt) + SumBy(b, amt)
  {
    if |b| == 0 {
      assert a + b == a;
    } else {
      var b' := b[..|b| - 1];
      SumByAppend(a, b', amt);
      assert a + b == (a + b') + [b[|b| - 1]];
      SumBySnoc(a + b', b[|b| - 1], amt);
    }
  }

  /** Widening the key set by one fresh key adds that key's group. */
  lemma {:induction false} SumWhereInSnoc<T, K>(s: seq<T>, key: T -> K, ks: seq<K>, k: K, amt: T -> int)
    requires k !in ks
    ensures SumWhereIn(s, key, ks + [k], amt) == SumWhereIn(s, key, ks, amt) + SumWhere(s, key, k, amt)
  {
    if |s| > 0 {
      SumWhereInSnoc(s[..|s| - 1], key, ks, k, amt);
      assert key(s[|s| - 1]) in ks + [k] <==> key(s[|s| - 1]) in ks || key(s[|s| - 1]) == k;
    }
  }

  /** When every key is listed, the listed groups cover everything. */
  lemma {:induction false} SumWhereInAll<T, K>(s: seq<T>, key: T -> K, ks: seq<K>, amt: T -> int)
    requires forall x :: x in s ==> key(x) in ks
    ensures SumWhereIn(s, key, ks, amt) == SumBy(s, amt)
  {
    if |s| > 0 {
      assert s[|s| - 1] in s;
      SumWhereInAll(s[..|s| - 1], key, ks, amt);
    }
  }

  /** Per-key totals listed for distinct keys add up to the total over the
      keys' groups. */
  lemma {:induction false} SumOfGroups<T, K>(s: seq<T>, key: T -> K, keys: seq<K>, values: seq<int>, amt: T -> int)
    requires NoDups(keys) && |values| == |keys|
    requires forall j :: 0 <= j < |keys| ==> values[j] == SumWhere(s, key, keys[j], amt)
    ensures Sum(values) == SumWhereIn(s, key, keys, amt)
  {
    if |keys| == 0 {
      SumWhereInNone(s, key, keys, amt);
    } else {
      var keys', k := keys[..|keys| - 1], keys[|keys| - 1];
      assert keys == keys' + [k];
      assert k !in keys';
      SumOfGroups(s, key, keys', values[..|values| - 1], amt);
      SumWhereInSnoc(s, key, keys', k, amt);
    }
  }

  lemma {:induction false} SumWhereInNone<T, K>(s: seq<T>, key: T -> K, ks: seq<K>, amt: T -> int)
    requires |ks| == 0
    ensures SumWhereIn(s, key, ks, amt) == 0
  {
    if |s| > 0 {
      SumWhereInNone(s[..|s| - 1], key, ks, amt);
    }
  }

  /** Grouping conserves the total: when `keys` lists every key that occurs,
      each once, and `values` holds each key's total, the values add up to
      the total of the whole sequence. */
  lemma PartitionSum<T, K>(s: seq<T>, key: T -> K, keys: seq<K>, values: seq<int>, amt: T -> int)
    requires NoDups(keys) && |values| == |keys|
    requires forall x :: x in s ==> key(x) in keys
    requires forall j :: 0 <= j < |keys| ==> values[j] == SumWhere(s, key, keys[j], amt)
    ensures Sum(values) == SumBy(s, amt)
  {
    SumOfGroups(s, key, keys, values, amt);
    SumWhereInAll(s, key, keys, amt);
  }

  /** A key that never occurs has an empty total. */
  lemma {:induction false} SumWhereAbsent<T, K>(s: seq<T>, key: T -> K, k: K, amt: T -> int)
    requires forall x :: x in s ==> key(x) != k
    ensures SumWhere(s, key, k, amt) == 0
  {
    if |s| > 0 {
      assert s[|s| - 1] in s;
      SumWhereAbsent(s[..|s| - 1], key, k, amt);
    }
  }
}
