/** `Array.prototype.sort`: with a comparator (the components pass
    `localeCompare` or a numeric key) and without one (UTF-16 code-unit
    order of the strings). The engine's algorithm is not fixed by the
    language, so the model is an insertion sort; what every caller relies on
    is that the result is ordered and a permutation of the input. */
module Sorting {
  import opened Js
  import opened Seqs

  /** `le` is a comparator `sort` can use consistently: every pair is
      comparable and the order is transitive. */
  ghost predicate TotalPreorder<T(!new)>(le: (T, T) -> bool)
  {
    (forall x, y :: le(x, y) || le(y, x)) &&
    (forall x, y, z :: le(x, y) && le(y, z) ==> le(x, z))
  }

  predicate SortedBy<T>(s: seq<T>, le: (T, T) -> bool)
  {
    forall i, j | 0 <= i < j < |s| :: le(s[i], s[j])
  }

  /** Places `x` after every element of `s` that is not above it. */
  function Insert<T(!new)>(x: T, s: seq<T>, le: (T, T) -> bool): (r: seq<T>)
    ensures multiset(r) == multiset(s) + multiset{x}
    ensures TotalPreorder(le) && SortedBy(s, le) ==> SortedBy(r, le)
  {
    if |s| == 0 then [x]
    else if !le(s[0], x) then
      PrependSorted(x, s, le);
      [x] + s
    else
      var t := Insert(x, s[1..], le);
      assert s == [s[0]] + s[1..];
      ConsSorted(s, x, t, le);
      [s[0]] + t
  }

  /** An element that the head is not below may go in front. */
  lemma PrependSorted<T(!new)>(x: T, s: seq<T>, le: (T, T) -> bool)
    requires |s| > 0 && !le(s[0], x)
    ensures TotalPreorder(le) && SortedBy(s, le) ==> SortedBy([x] + s, le)
  {
    if TotalPreorder(le) && SortedBy(s, le) {
      assert le(x, s[0]);
      forall i, j | 0 <= i < j < |[x] + s|
        ensures le(([x] + s)[i], ([x] + s)[j])
      {
        if i == 0 && j > 1 {
          assert le(s[0], s[j - 1]);
        }
      }
    }
  }

  /** The head stays in front of the sorted insertion into the tail. */
  lemma ConsSorted<T(!new)>(s: seq<T>, x: T, t: seq<T>, le: (T, T) -> bool)
    requires |s| > 0 && le(s[0], x)
    requires multiset(t) == multiset(s[1..]) + multiset{x}
    requires TotalPreorder(le) && SortedBy(s[1..], le) ==> SortedBy(t, le)
    ensures TotalPreorder(le) && SortedBy(s, le) ==> SortedBy([s[0]] + t, le)
  {
    if TotalPreorder(le) && SortedBy(s, le) {
      assert SortedBy(s[1..], le);
      forall j | 0 <= j < |t|
        ensures le(s[0], t[j])
      {
        assert t[j] in multiset(t);
        if t[j] != x {
          assert t[j] in multiset(s[1..]);
          var k :| 0 <= k < |s[1..]| && s[1..][k] == t[j];
          assert le(s[0], s[k + 1]);
        }
      }
    }
  }

  /** `s.sort(le)` */
  function SortBy<T(!new)>(s: seq<T>, le: (T, T) -> bool): (r: seq<T>)
    ensures multiset(r) == multiset(s)
    ensures TotalPreorder(le) ==> SortedBy(r, le)
  {
    if |s| == 0 then []
    else
      assert s == s[..|s| - 1] + [s[|s| - 1]];
      Insert(s[|s| - 1], SortBy(s[..|s| - 1], le), le)
  }

  lemma SortByLength<T(!new)>(s: seq<T>, le: (T, T) -> bool)
    ensures |SortBy(s, le)| == |s|
    ensures forall x :: x in SortBy(s, le) <==> x in s
  {
    var r := SortBy(s, le);
    assert |multiset(r)| == |multiset(s)|;
    forall x
      ensures x in r <==> x in s
    {
      assert x in r <==> x in multiset(r);
      assert x in s <==> x in multiset(s);
    }
  }

  /** A duplicate-free sequence holds each value at most once. */
  lemma {:induction false} NoDupsCount<T>(s: seq<T>, x: T)
    requires NoDups(s)
    ensures multiset(s)[x] <= 1
  {
    if |s| > 0 {
      var s' := s[..|s| - 1];
      assert s == s' + [s[|s| - 1]];
      assert NoDups(s');
      NoDupsCount(s', x);
      if x == s[|s| - 1] {
        assert x !in s';
      }
    }
  }

  /** Two equal positions make a value occur at least twice. */
  lemma DupCount<T>(s: seq<T>, i: int, j: int)
    requires 0 <= i < j < |s| && s[i] == s[j]
    ensures multiset(s)[s[i]] >= 2
  {
    assert s == s[..j] + [s[j]] + s[j + 1..];
    assert s[i] == s[..j][i];
    assert multiset(s[..j])[s[i]] >= 1;
  }

  /** Reordering cannot create duplicates. */
  lemma PermutationNoDups<T>(a: seq<T>, b: seq<T>)
    requires multiset(a) == multiset(b) && NoDups(a)
    ensures NoDups(b)
  {
    forall i, j | 0 <= i < j < |b|
      ensures b[i] != b[j]
    {
      if b[i] == b[j] {
        DupCount(b, i, j);
        NoDupsCount(a, b[i]);
      }
    }
  }

  /** Sorting the distinct values of `s` leaves them distinct. */
  lemma SortDistinct<T(!new)>(s: seq<T>, le: (T, T) -> bool)
    ensures NoDups(SortBy(Distinct(s), le))
    ensures forall x :: x in SortBy(Distinct(s), le) <==> x in s
  {
    PermutationNoDups(Distinct(s), SortBy(Distinct(s), le));
    SortByLength(Distinct(s), le);
  }

  /** The order `sort()` uses without a comparator: UTF-16 code units,
      compared left to right, a prefix before its extensions. */
  predicate StrLe(a: string, b: string)
  {
    if |a| == 0 then true
    else if |b| == 0 then false
    else if a[0] != b[0] then a[0] < b[0]
    else StrLe(a[1..], b[1..])
  }

  lemma {:induction false} StrLeTotal(a: string, b: string)
    ensures StrLe(a, b) || StrLe(b, a)
  {
    if |a| > 0 && |b| > 0 && a[0] == b[0] {
      StrLeTotal(a[1..], b[1..]);
    }
  }

  lemma {:induction false} StrLeTransitive(a: string, b: string, c: string)
    requires StrLe(a, b) && StrLe(b, c)
    ensures StrLe(a, c)
  {
    if |a| > 0 && |b| > 0 && |c| > 0 && a[0] == b[0] && b[0] == c[0] {
      StrLeTransitive(a[1..], b[1..], c[1..]);
    }
  }

  lemma {:induction false} StrLeAntisymmetric(a: string, b: string)
    requires StrLe(a, b) && StrLe(b, a)
    ensures a == b
  {
    if |a| > 0 && |b| > 0 {
      StrLeAntisymmetric(a[1..], b[1..]);
      assert a == [a[0]] + a[1..] && b == [b[0]] + b[1..];
    }
  }

  /** Code-unit order is a comparator `sort` can use. */
  lemma StrLeTotalPreorder()
    ensures TotalPreorder(StrLe)
  {
    forall x, y
      ensures StrLe(x, y) || StrLe(y, x)
    {
      StrLeTotal(x, y);
    }
    forall x, y, z | StrLe(x, y) && StrLe(y, z)
      ensures StrLe(x, z)
    {
      StrLeTransitive(x, y, z);
    }
  }

  /** Two sorted arrangements of the same values under an antisymmetric
      order are the same sequence: `sort()` of strings has one outcome. */
  lemma {:induction false} SortedUnique(a: seq<string>, b: seq<string>)
    requires multiset(a) == multiset(b)
    requires SortedBy(a, StrLe) && SortedBy(b, StrLe)
    ensures a == b
  {
    assert |b| == |a| by {
      assert |multiset(a)| == |multiset(b)|;
    }
    if |a| > 0 {
      var a', b' := a[..|a| - 1], b[..|b| - 1];
      SortedLastEqual(a, b);
      assert a == a' + [a[|a| - 1]] && b == b' + [b[|b| - 1]];
      MultisetCancel(a', b', a[|a| - 1]);
      SortedUnique(a', b');
    }
  }

  /** The largest element of two sorted arrangements is the same. */
  lemma SortedLastEqual(a: seq<string>, b: seq<string>)
    requires multiset(a) == multiset(b) && |a| == |b| > 0
    requires SortedBy(a, StrLe) && SortedBy(b, StrLe)
    ensures a[|a| - 1] == b[|b| - 1]
  {
    var x, y := a[|a| - 1], b[|b| - 1];
    assert x in multiset(b);
    assert y in multiset(a);
    var i :| 0 <= i < |b| && b[i] == x;
    var j :| 0 <= j < |a| && a[j] == y;
    assert StrLe(x, y) by {
      if i == |b| - 1 {
        StrLeTotal(x, y);
      }
    }
    assert StrLe(y, x) by {
      if j == |a| - 1 {
        StrLeTotal(y, x);
      }
    }
    StrLeAntisymmetric(x, y);
  }

  lemma MultisetCancel<T>(a: seq<T>, b: seq<T>, x: T)
    requires multiset(a + [x]) == multiset(b + [x])
    ensures multiset(a) == multiset(b)
  {
    assert multiset(a + [x]) == multiset(a) + multiset{x};
    assert multiset(b + [x]) == multiset(b) + multiset{x};
    forall z
      ensures multiset(a)[z] == multiset(b)[z]
    {
      assert multiset(a + [x])[z] == multiset(b + [x])[z];
    }
  }

  /** The order `sort()` without a comparator gives an array of values:
      `undefined` goes last and everything else is compared as `String(v)`. */
  predicate DefaultLe(a: Value, b: Value)
  {
    if b == Undefined then true
    else if a == Undefined then false
    else StrLe(ToStr(a), ToStr(b))
  }

  lemma DefaultLeTotalPreorder()
    ensures TotalPreorder(DefaultLe)
  {
    forall x, y
      ensures DefaultLe(x, y) || DefaultLe(y, x)
    {
      StrLeTotal(ToStr(x), ToStr(y));
    }
    forall x, y, z | DefaultLe(x, y) && DefaultLe(y, z)
      ensures DefaultLe(x, z)
    {
      if x != Undefined && y != Undefined && z != Undefined {
        StrLeTransitive(ToStr(x), ToStr(y), ToStr(z));
      }
    }
  }

  /** `[...new Set(s)].sort()`-style option lists: distinct, ordered, and
      holding exactly the values of `s`. */
  lemma DefaultSortDistinct(s: seq<Value>)
    ensures NoDups(SortBy(Distinct(s), DefaultLe))
    ensures SortedBy(SortBy(Distinct(s), DefaultLe), DefaultLe)
    ensures forall x :: x in SortBy(Distinct(s), DefaultLe) <==> x in s
  {
    SortDistinct(s, DefaultLe);
    DefaultLeTotalPreorder();
  }
}
