/** The summary cards: how many distinct regions, districts, sub-districts
    and RWs the rows cover, each counted by a '|'-joined path of names, and
    the total number of CIP works. */
module InfoCards {
  import opened Js
  import opened Seqs
  import opened Sums
  import ChartPanel

  /** The region hierarchy, from the top. */
  const Levels: seq<string> := ["wilayah", "kecamatan", "kelurahan", "lokasi_rw"]

  /** The template-literal key of the first `n` levels of a row, e.g.
      `${d.wilayah}|${d.kecamatan}` for `n == 2`. */
  function PathKey(d: Record, n: nat): string
    requires 1 <= n <= |Levels|
  {
    if n == 1 then ToStr(Get(d, Levels[0]))
    else PathKey(d, n - 1) + "|" + ToStr(Get(d, Levels[n - 1]))
  }

  function PathKeyOf(n: nat): Record -> string
    requires 1 <= n <= |Levels|
  {
    d => PathKey(d, n)
  }

  /** `new Set(data.map(...)).size` for the first `n` levels. The region
      set holds the raw values; the deeper sets hold the joined strings. */
  function Count(data: seq<Record>, n: nat): (c: nat)
    requires 1 <= n <= |Levels|
    ensures c <= |data|
    ensures data == [] <==> c == 0
  {
    if n == 1 then
      assert |data| > 0 ==> FieldOf(Levels[0])(data[0]) in MapSeq(data, FieldOf(Levels[0]));
      |Distinct(MapSeq(data, FieldOf(Levels[0])))|
    else
      assert |data| > 0 ==> PathKeyOf(n)(data[0]) in MapSeq(data, PathKeyOf(n));
      |Distinct(MapSeq(data, PathKeyOf(n)))|
  }

  /** The text before the last '|'. */
  function DropLast(s: string): string
  {
    if |s| == 0 then ""
    else if s[|s| - 1] == '|' then s[..|s| - 1]
    else DropLast(s[..|s| - 1])
  }

  /** Cutting at the last bar recovers the parent path when the last name
      has no bar. */
  lemma {:induction false} DropLastSegment(parent: string, name: string)
    requires '|' !in name
    ensures DropLast(parent + "|" + name) == parent
  {
    var s := parent + "|" + name;
    if |name| == 0 {
      assert s[..|s| - 1] == parent;
    } else {
      var init := name[..|name| - 1];
      assert s[..|s| - 1] == parent + "|" + init;
      assert name[|name| - 1] in name;
      DropLastSegment(parent, init);
    }
  }

  /** No two different region values of the rows are written the same. */
  predicate RegionTextsDistinct(data: seq<Record>)
  {
    forall d, e :: d in data && e in data && ToStr(Get(d, Levels[0])) == ToStr(Get(e, Levels[0])) ==>
      Get(d, Levels[0]) == Get(e, Levels[0])
  }

  /** A deeper level never counts fewer places, provided the names it adds
      contain no '|' and, below the regions, distinct region values stay
      distinct once written as text. */
  lemma CountMonotone(data: seq<Record>, n: nat)
    requires 1 <= n < |Levels|
    requires forall d :: d in data ==> '|' !in ToStr(Get(d, Levels[n]))
    requires n == 1 ==> RegionTextsDistinct(data)
    ensures Count(data, n) <= Count(data, n + 1)
  {
    KeyCountMonotone(data, n);
    if n == 1 {
      RegionCountIsKeyCount(data);
    }
  }

  /** The joined keys of a level are no more numerous than those of the
      level below, when the names it adds contain no '|'. */
  lemma KeyCountMonotone(data: seq<Record>, n: nat)
    requires 1 <= n < |Levels|
    requires forall d :: d in data ==> '|' !in ToStr(Get(d, Levels[n]))
    ensures |Distinct(MapSeq(data, PathKeyOf(n)))| <= Count(data, n + 1)
  {
    var m := n + 1;
    var upperKeys := MapSeq(data, PathKeyOf(n));
    var lowerKeys := MapSeq(data, PathKeyOf(m));
    forall i | 0 <= i < |data|
      ensures DropLast(lowerKeys[i]) == upperKeys[i]
    {
      assert data[i] in data;
      KeyParent(data[i], n);
    }
    ParentKeys(upperKeys, lowerKeys);
    DistinctCard(upperKeys);
    DistinctCard(lowerKeys);
  }

  /** When no two different region values are written the same, there are
      as many region values as region texts. */
  lemma RegionCountIsKeyCount(data: seq<Record>)
    requires RegionTextsDistinct(data)
    ensures Count(data, 1) <= |Distinct(MapSeq(data, PathKeyOf(1)))|
  {
    var raw := MapSeq(data, FieldOf(Levels[0]));
    var keys := MapSeq(data, PathKeyOf(1));
    var rs := set v | v in raw;
    var ks := set k | k in keys;
    forall v | v in rs
      ensures ToStr(v) in ks
    {
      var i :| 0 <= i < |raw| && raw[i] == v;
      assert keys[i] == ToStr(v);
    }
    forall v, w | v in rs && w in rs && ToStr(v) == ToStr(w)
      ensures v == w
    {
      var i :| 0 <= i < |raw| && raw[i] == v;
      var j :| 0 <= j < |raw| && raw[j] == w;
      assert data[i] in data && data[j] in data;
    }
    InjectiveImageCard(rs, ks, ToStr);
    DistinctCard(raw);
    DistinctCard(keys);
  }

  /** The region set keeps `undefined` and the text 'undefined' apart while
      the district keys merge them, so without the condition above the
      regions can outnumber the districts. */
  lemma UndefinedRegionBreaksMonotone()
    ensures var data := [[("kecamatan", Str("x"))],
                         [("wilayah", Str("undefined")), ("kecamatan", Str("x"))]];
            Count(data, 1) == 2 && Count(data, 2) == 1
  {
    var data := [[("kecamatan", Str("x"))],
                 [("wilayah", Str("undefined")), ("kecamatan", Str("x"))]];
    assert "kecamatan"[0] != "wilayah"[0];
    GetAt(data[1], "kecamatan", 1);
    assert Get(data[0], "wilayah") == Undefined;
    assert PathKey(data[0], 2) == "undefined" + "|" + "x" == "undefined|x";
    assert PathKey(data[1], 2) == "undefined" + "|" + "x" == "undefined|x";
    assert MapSeq(data, FieldOf(Levels[0])) == [Undefined, Str("undefined")];
    assert MapSeq(data, PathKeyOf(2)) == ["undefined|x", "undefined|x"];
    assert (set k | k in [Undefined, Str("undefined")]) == {Undefined, Str("undefined")};
    assert (set k | k in ["undefined|x", "undefined|x"]) == {"undefined|x"};
    DistinctCard(MapSeq(data, FieldOf(Levels[0])));
    DistinctCard(MapSeq(data, PathKeyOf(2)));
  }

  lemma KeyParent(d: Record, n: nat)
    requires 1 <= n < |Levels| && '|' !in ToStr(Get(d, Levels[n]))
    ensures DropLast(PathKey(d, n + 1)) == PathKey(d, n)
  {
    DropLastSegment(PathKey(d, n), ToStr(Get(d, Levels[n])));
  }

  /** When every key is its deeper key cut at the last bar, there are no
      more distinct keys than distinct deeper keys. */
  lemma ParentKeys(upperKeys: seq<string>, lowerKeys: seq<string>)
    requires |upperKeys| == |lowerKeys|
    requires forall i :: 0 <= i < |lowerKeys| ==> DropLast(lowerKeys[i]) == upperKeys[i]
    ensures |set k | k in upperKeys| <= |set k | k in lowerKeys|
  {
    var upper := set k | k in upperKeys;
    var lower := set k | k in lowerKeys;
    forall y | y in upper
      ensures exists x :: x in lower && DropLast(x) == y
    {
      var i :| 0 <= i < |upperKeys| && upperKeys[i] == y;
      assert lowerKeys[i] in lower;
    }
    ImageCard(lower, upper, DropLast);
  }

  /** Without the bar-free names the order of the counts can flip: two
      rows in two regions collapse to one district key. */
  lemma BarInNameBreaksMonotone()
    ensures var data := [[("wilayah", Str("a|b")), ("kecamatan", Str("c"))],
                         [("wilayah", Str("a")), ("kecamatan", Str("b|c"))]];
            Count(data, 1) == 2 && Count(data, 2) == 1
  {
    var data := [[("wilayah", Str("a|b")), ("kecamatan", Str("c"))],
                 [("wilayah", Str("a")), ("kecamatan", Str("b|c"))]];
    assert "kecamatan"[0] != "wilayah"[0];
    GetAt(data[0], "kecamatan", 1);
    GetAt(data[1], "kecamatan", 1);
    assert PathKey(data[0], 2) == "a|b" + "|" + "c" == "a|b|c";
    assert PathKey(data[1], 2) == "a" + "|" + "b|c" == "a|b|c";
    assert MapSeq(data, FieldOf(Levels[0])) == [Str("a|b"), Str("a")];
    assert MapSeq(data, PathKeyOf(2)) == ["a|b|c", "a|b|c"];
    assert (set k | k in [Str("a|b"), Str("a")]) == {Str("a|b"), Str("a")};
    assert (set k | k in ["a|b|c", "a|b|c"]) == {"a|b|c"};
    DistinctCard(MapSeq(data, FieldOf(Levels[0])));
    DistinctCard(MapSeq(data, PathKeyOf(2)));
  }

  /** `totalCIP`: the works summed over every row, missing counted as 0. */
  function TotalCip(data: seq<Record>): int
  {
    SumBy(data, ChartPanel.Jumlah())
  }

  datatype Info = Info(title: string, value: int)

  /** `info`: the five cards in their fixed order. */
  function InfoList(data: seq<Record>): (r: seq<Info>)
    ensures |r| == 5
    ensures r[0].title == "Wilayah CIP" && r[1].title == "Kecamatan CIP" && r[2].title == "Kelurahan CIP"
    ensures r[3].title == "RW CIP" && r[4].title == "Total CIP"
    ensures r[0].value == Count(data, 1) && r[1].value == Count(data, 2)
    ensures r[2].value == Count(data, 3) && r[3].value == Count(data, 4)
    ensures r[4].value == TotalCip(data)
  {
    [Info("Wilayah CIP", Count(data, 1)), Info("Kecamatan CIP", Count(data, 2)),
     Info("Kelurahan CIP", Count(data, 3)), Info("RW CIP", Count(data, 4)),
     Info("Total CIP", TotalCip(data))]
  }

  /** No rows: every card shows 0. */
  lemma EmptyDataShowsZeros()
    ensures forall i :: 0 <= i < 5 ==> InfoList([])[i].value == 0
  {
  }
}
