/** The array idioms the dashboard's components are built from:
    `[...new Set(xs)]`, `xs.filter(p)`, `xs.map(f)` and `xs.flatMap(f)`.
    Every recursion peels the LAST element, which is the order in which
    `forEach` and `push` build their results. */
module Seqs {

  /** No value occurs twice. */
  predicate NoDups<T(==)>(s: seq<T>)
  {
    forall i, j | 0 <= i < j < |s| :: s[i] != s[j]
  }

  /** Appending a fresh value keeps a sequence duplicate-free. */
  lemma NoDupsSnoc<T>(s: seq<T>, x: T)
    requires NoDups(s) && x !in s
    ensures NoDups(s + [x])
  {
  }

  /** Concatenating disjoint duplicate-free sequences. */
  lemma NoDupsConcat<T>(a: seq<T>, b: seq<T>)
    requires NoDups(a) && NoDups(b)
    requires forall x :: x in a ==> x !in b
    ensures NoDups(a + b)
  {
    forall i, j | 0 <= i < j < |a + b|
      ensures (a + b)[i] != (a + b)[j]
    {
      if i < |a| && j >= |a| {
        assert (a + b)[i] in a;
        assert (a + b)[j] in b;
      }
    }
  }

  /** Filtering keeps a duplicate-free sequence duplicate-free. */
  lemma {:induction false} FilterNoDups<T(!new)>(s: seq<T>, p: T -> bool)
    requires NoDups(s)
    ensures NoDups(FilterBy(s, p))
  {
    if |s| > 0 {
      var init, x := s[..|s| - 1], s[|s| - 1];
      assert s == init + [x];
      FilterNoDups(init, p);
      FilterSnoc(init, x, p);
      if p(x) {
        assert x !in init;
        NoDupsSnoc(FilterBy(init, p), x);
      }
    }
  }

  /** `a` is an order-preserving subsequence of `b`. */
  predicate IsSubseq<T(==)>(a: seq<T>, b: seq<T>)
    decreases |b|
  {
    if |a| == 0 then true
    else if |b| == 0 then false
    else (a[|a| - 1] == b[|b| - 1] && IsSubseq(a[..|a| - 1], b[..|b| - 1]))
         || IsSubseq(a, b[..|b| - 1])
  }

  lemma {:induction false} SubseqElements<T>(a: seq<T>, b: seq<T>)
    requires IsSubseq(a, b)
    ensures |a| <= |b|
    ensures forall x :: x in a ==> x in b
    decreases |b|
  {
    if |a| > 0 {
      if a[|a| - 1] == b[|b| - 1] && IsSubseq(a[..|a| - 1], b[..|b| - 1]) {
        SubseqElements(a[..|a| - 1], b[..|b| - 1]);
        assert a == a[..|a| - 1] + [a[|a| - 1]];
        assert b == b[..|b| - 1] + [b[|b| - 1]];
      } else {
        SubseqElements(a, b[..|b| - 1]);
        assert b == b[..|b| - 1] + [b[|b| - 1]];
      }
    }
  }

  lemma {:induction false} SubseqReflexive<T>(s: seq<T>)
    ensures IsSubseq(s, s)
    decreases |s|
  {
    if |s| > 0 {
      SubseqReflexive(s[..|s| - 1]);
    }
  }

  /** `[...new Set(s)]`: the distinct values of `s` in first-seen order. */
  function Distinct<T(==, !new)>(s: seq<T>): (r: seq<T>)
    ensures NoDups(r)
    ensures forall x {:trigger x in r} :: x in r <==> x in s
    ensures |r| <= |s|
  {
    if |s| == 0 then []
    else
      var d := Distinct(s[..|s| - 1]);
      assert s == s[..|s| - 1] + [s[|s| - 1]];
      if s[|s| - 1] in d then d else d + [s[|s| - 1]]
  }

  /** The distinct values keep the order of their first occurrences. */
  lemma {:induction false} DistinctIsSubseq<T(!new)>(s: seq<T>)
    ensures IsSubseq(Distinct(s), s)
  {
    if |s| > 0 {
      var init := s[..|s| - 1];
      DistinctIsSubseq(init);
      var d := Distinct(s);
      if s[|s| - 1] in Distinct(init) {
        assert d == Distinct(init);
        if |d| > 0 {
          assert IsSubseq(d, s[..|s| - 1]);
        }
      } else {
        assert d[..|d| - 1] == Distinct(init);
      }
    }
  }

  /** A duplicate-free sequence whose elements all equal `v` is empty or `[v]`. */
  lemma NoDupsSingleValue<T>(s: seq<T>, v: T)
    requires NoDups(s) && forall x :: x in s ==> x == v
    ensures s == [] || s == [v]
  {
    NoDupsCard(s);
    SubsetCard(set x | x in s, {v});
    if |s| == 1 {
      assert s[0] in s;
    }
  }

  /** A duplicate-free sequence is its own set of distinct values. */
  lemma {:induction false} DistinctOfNoDups<T(!new)>(s: seq<T>)
    requires NoDups(s)
    ensures Distinct(s) == s
  {
    if |s| > 0 {
      DistinctOfNoDups(s[..|s| - 1]);
      assert s == s[..|s| - 1] + [s[|s| - 1]];
    }
  }

  /** Adding one value to a `Set` built from `s`. */
  lemma DistinctSnoc<T(!new)>(s: seq<T>, y: T)
    ensures Distinct(s + [y]) == if y in Distinct(s) then Distinct(s) else Distinct(s) + [y]
  {
    assert (s + [y])[..|s|] == s;
  }

  /** `new Set(a)` followed by adding each element of `b`: the distinct
      values of `a`, then those values of `b` not in `a`, in first-seen order. */
  lemma {:induction false} DistinctAppend<T(!new)>(a: seq<T>, b: seq<T>)
    ensures Distinct(a + b) == Distinct(a) + Distinct(FilterBy(b, NotIn(a)))
  {
    if |b| == 0 {
      assert a + b == a;
      assert FilterBy(b, NotIn(a)) == [];
    } else {
      var b' := b[..|b| - 1];
      var y := b[|b| - 1];
      assert b == b' + [y];
      DistinctAppend(a, b');
      if y in a {
        DistinctAppendSeen(a, b', y);
      } else {
        DistinctAppendUnseen(a, b', y);
        ConcatAssoc(Distinct(a), Distinct(FilterBy(b', NotIn(a))), [y]);
      }
    }
  }

  lemma ConcatAssoc<T>(a: seq<T>, b: seq<T>, c: seq<T>)
    ensures (a + b) + c == a + (b + c)
  {
  }

  /** Adding a value that `a` already holds changes neither side. */
  lemma DistinctAppendSeen<T(!new)>(a: seq<T>, b: seq<T>, y: T)
    requires y in a
    ensures Distinct(a + (b + [y])) == Distinct(a + b)
    ensures FilterBy(b + [y], NotIn(a)) == FilterBy(b, NotIn(a))
  {
    ConcatAssoc(a, b, [y]);
    DistinctSnoc(a + b, y);
    assert y in a + b;
    FilterSnoc(b, y, NotIn(a));
    AppendEmpty(FilterBy(b, NotIn(a)));
  }

  lemma AppendEmpty<T>(s: seq<T>)
    ensures s + [] == s
  {
  }

  /** Adding a value that `a` lacks extends both sides alike. */
  lemma DistinctAppendUnseen<T(!new)>(a: seq<T>, b: seq<T>, y: T)
    requires y !in a
    ensures Distinct(a + (b + [y])) ==
      if y in b then Distinct(a + b) else Distinct(a + b) + [y]
    ensures Distinct(FilterBy(b + [y], NotIn(a))) ==
      if y in b then Distinct(FilterBy(b, NotIn(a))) else Distinct(FilterBy(b, NotIn(a))) + [y]
  {
    ConcatAssoc(a, b, [y]);
    DistinctSnoc(a + b, y);
    assert y in Distinct(a + b) <==> y in b by {
      assert y in a + b <==> y in b;
    }
    FilterSnoc(b, y, NotIn(a));
    var f := FilterBy(b, NotIn(a));
    DistinctSnoc(f, y);
    assert y in Distinct(f) <==> y in b by {
      assert y in f <==> y in b;
    }
  }

  /** `s.filter(p)` */
  function FilterBy<T(!new)>(s: seq<T>, p: T -> bool): (r: seq<T>)
    ensures |r| <= |s|
    ensures forall x {:trigger x in r} :: x in r <==> x in s && p(x)
  {
    if |s| == 0 then []
    else
      assert s == s[..|s| - 1] + [s[|s| - 1]];
      FilterBy(s[..|s| - 1], p) + (if p(s[|s| - 1]) then [s[|s| - 1]] else [])
  }

  /** Filtering keeps every copy of a kept value and no copy of a dropped
      one. */
  lemma {:induction false} FilterCount<T(!new)>(s: seq<T>, p: T -> bool)
    ensures forall x :: multiset(FilterBy(s, p))[x] == if p(x) then multiset(s)[x] else 0
    decreases |s|
  {
    if |s| > 0 {
      var init, y := s[..|s| - 1], s[|s| - 1];
      assert s == init + [y];
      FilterCount(init, p);
      FilterSnoc(init, y, p);
    }
  }

  lemma FilterSnoc<T(!new)>(s: seq<T>, y: T, p: T -> bool)
    ensures FilterBy(s + [y], p) == FilterBy(s, p) + if p(y) then [y] else []
  {
    assert (s + [y])[..|s|] == s;
  }

  /** The predicate `x => !a.includes(x)`. */
  function NotIn<T(==)>(a: seq<T>): T -> bool
  {
    x => x !in a
  }

  /** Filtering keeps the surviving elements in their original order. */
  lemma {:induction false} FilterIsSubseq<T(!new)>(s: seq<T>, p: T -> bool)
    ensures IsSubseq(FilterBy(s, p), s)
  {
    if |s| > 0 {
      var s' := s[..|s| - 1];
      FilterIsSubseq(s', p);
      var r := FilterBy(s, p);
      if p(s[|s| - 1]) {
        assert r[..|r| - 1] == FilterBy(s', p);
      } else {
        assert r == FilterBy(s', p);
        if |r| > 0 {
          assert IsSubseq(r, s[..|s| - 1]);
        }
      }
    }
  }

  /** Filtering what is already filtered changes nothing. */
  lemma {:induction false} FilterIdempotent<T(!new)>(s: seq<T>, p: T -> bool)
    ensures FilterBy(FilterBy(s, p), p) == FilterBy(s, p)
  {
    FilterKeepsAll(FilterBy(s, p), p);
  }

  /** A filter every element passes keeps the whole sequence. */
  lemma {:induction false} FilterKeepsAll<T(!new)>(s: seq<T>, p: T -> bool)
    requires forall x :: x in s ==> p(x)
    ensures FilterBy(s, p) == s
  {
    if |s| > 0 {
      assert s == s[..|s| - 1] + [s[|s| - 1]];
      FilterKeepsAll(s[..|s| - 1], p);
    }
  }

  /** A stronger predicate keeps a subsequence of what a weaker one keeps. */
  lemma {:induction false} FilterMonotone<T(!new)>(s: seq<T>, p: T -> bool, q: T -> bool)
    requires forall x :: x in s && p(x) ==> q(x)
    ensures IsSubseq(FilterBy(s, p), FilterBy(s, q))
  {
    if |s| == 0 {
    } else {
      var s' := s[..|s| - 1];
      var x := s[|s| - 1];
      assert s == s' + [x];
      FilterMonotone(s', p, q);
      var a := FilterBy(s, p);
      var b := FilterBy(s, q);
      if p(x) {
        assert a[..|a| - 1] == FilterBy(s', p);
        assert b[..|b| - 1] == FilterBy(s', q);
      } else if q(x) {
        assert a == FilterBy(s', p);
        assert b[..|b| - 1] == FilterBy(s', q);
        if |a| > 0 {
          assert IsSubseq(a, b[..|b| - 1]);
        }
      } else {
        assert a == FilterBy(s', p);
        assert b == FilterBy(s', q);
      }
    }
  }

  /** Filtering distributes over concatenation. */
  lemma {:induction false} FilterAppend<T(!new)>(a: seq<T>, b: seq<T>, p: T -> bool)
    ensures FilterBy(a + b, p) == FilterBy(a, p) + FilterBy(b, p)
  {
    if |b| == 0 {
      assert a + b == a;
    } else {
      var b' := b[..|b| - 1];
      FilterAppend(a, b', p);
      var c := a + b;
      assert c[..|c| - 1] == a + b';
      assert c[|c| - 1] == b[|b| - 1];
    }
  }

  /** `s.map(f)` */
  function MapSeq<A, B>(s: seq<A>, f: A -> B): (r: seq<B>)
    ensures |r| == |s| && forall i :: 0 <= i < |s| ==> r[i] == f(s[i])
  {
    seq(|s|, i requires 0 <= i < |s| => f(s[i]))
  }

  /** Filtering leaves nothing exactly when no element passes. */
  lemma FilterEmpty<T(!new)>(s: seq<T>, p: T -> bool)
    ensures |FilterBy(s, p)| == 0 <==> forall x :: x in s ==> !p(x)
  {
    HeadIn(FilterBy(s, p));
  }

  /** A non-empty sequence holds its first element. */
  lemma HeadIn<T>(s: seq<T>)
    ensures |s| > 0 ==> s[0] in s
  {
  }

  /** The prefix one longer is the prefix and the next element. */
  lemma TakeSnoc<T>(s: seq<T>, i: nat)
    requires i < |s|
    ensures s[..i + 1] == s[..i] + [s[i]]
  {
  }

  lemma MapSnoc<A, B>(s: seq<A>, x: A, f: A -> B)
    ensures MapSeq(s + [x], f) == MapSeq(s, f) + [f(x)]
  {
  }

  lemma MapMembership<A, B>(s: seq<A>, f: A -> B, y: B)
    ensures y in MapSeq(s, f) <==> exists x :: x in s && f(x) == y
  {
    if y in MapSeq(s, f) {
      var i :| 0 <= i < |s| && MapSeq(s, f)[i] == y;
      assert s[i] in s;
    }
  }

  /** `xss.flat()`, the concatenation of the parts in order. */
  function Flatten<T>(xss: seq<seq<T>>): seq<T>
  {
    if |xss| == 0 then [] else Flatten(xss[..|xss| - 1]) + xss[|xss| - 1]
  }

  lemma {:induction false} FlattenMembership<T>(xss: seq<seq<T>>, x: T)
    ensures x in Flatten(xss) <==> exists i :: 0 <= i < |xss| && x in xss[i]
  {
    if |xss| > 0 {
      FlattenMembership(xss[..|xss| - 1], x);
      if x in xss[|xss| - 1] {
        assert 0 <= |xss| - 1 < |xss| && x in xss[|xss| - 1];
      }
      if exists i :: 0 <= i < |xss| - 1 && x in xss[i] {
        var i :| 0 <= i < |xss| - 1 && x in xss[i];
        assert xss[..|xss| - 1][i] == xss[i];
      }
      if exists i :: 0 <= i < |xss| && x in xss[i] {
        var i :| 0 <= i < |xss| && x in xss[i];
        if i < |xss| - 1 {
          assert xss[..|xss| - 1][i] == xss[i];
        }
      }
    }
  }

  /** Duplicate-free sequences have as many elements as their sets. */
  lemma {:induction false} NoDupsCard<T>(s: seq<T>)
    requires NoDups(s)
    ensures |set x | x in s| == |s|
  {
    if |s| > 0 {
      var s' := s[..|s| - 1];
      NoDupsCard(s');
      assert s == s' + [s[|s| - 1]];
      assert (set x | x in s) == (set x | x in s') + {s[|s| - 1]};
    }
  }

  /** `new Set(s).size` is the number of distinct values in `s`. */
  lemma DistinctCard<T(!new)>(s: seq<T>)
    ensures |Distinct(s)| == |set x | x in s|
  {
    NoDupsCard(Distinct(s));
    assert (set x | x in Distinct(s)) == (set x | x in s);
  }

  /** The image of a set under a function is no larger than the set. */
  lemma {:induction false} ImageCard<A, B>(xs: set<A>, ys: set<B>, f: A -> B)
    requires forall y :: y in ys ==> exists x :: x in xs && f(x) == y
    ensures |ys| <= |xs|
    decreases |xs|
  {
    if xs != {} {
      var a :| a in xs;
      var rest := xs - {a};
      var others := ys - {f(a)};
      forall y | y in others
        ensures exists x :: x in rest && f(x) == y
      {
        var x :| x in xs && f(x) == y;
        assert x != a;
      }
      ImageCard(rest, others, f);
      assert |ys| <= |others| + 1;
    } else {
      assert forall y :: y !in ys;
    }
  }


  /** A function that keeps distinct elements apart maps a set into a set
      at least as large. */
  lemma {:induction false} InjectiveImageCard<A, B>(xs: set<A>, ys: set<B>, f: A -> B)
    requires forall x :: x in xs ==> f(x) in ys
    requires forall x, y :: x in xs && y in xs && f(x) == f(y) ==> x == y
    ensures |xs| <= |ys|
    decreases |xs|
  {
    if xs != {} {
      var a :| a in xs;
      var rest := xs - {a};
      var others := ys - {f(a)};
      InjectiveImageCard(rest, others, f);
    }
  }


  /** A subset is no larger, and a subset of the same size is the set. */
  lemma {:induction false} SubsetCard<T>(a: set<T>, b: set<T>)
    requires a <= b
    ensures |a| <= |b|
    ensures |a| == |b| ==> a == b
    decreases |a|
  {
    if a != {} {
      var x :| x in a;
      SubsetCard(a - {x}, b - {x});
      assert |a - {x}| == |a| - 1 && |b - {x}| == |b| - 1;
      assert a == (a - {x}) + {x} && b == (b - {x}) + {x};
    } else if b != {} {
      var x :| x in b;
      assert |b| == |b - {x}| + 1;
    }
  }
}
