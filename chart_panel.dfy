/** The CIP bar chart: the grouping field chosen from the filters, the
    distinct x-axis labels and their order, one dataset per year, and each
    bar as the sum of `jumlah_peningkatan_psu_dilaksanakan` over the rows of
    that year and label. */
module ChartPanel {
  import opened Js
  import opened Seqs
  import opened Sorting
  import opened Sums

  const JumlahKey: string := "jumlah_peningkatan_psu_dilaksanakan"

  /** The grouping field. "Set" means truthy. */
  function XField(filters: Record): (r: string)
    ensures r == "wilayah" || r == "kecamatan" || r == "kelurahan" || r == "lokasi_rw"
    ensures r != "lokasi_kabkota"
    ensures r == "lokasi_rw" <==>
      (Truthy(Get(filters, "kelurahan")) &&
       !(Truthy(Get(filters, "wilayah")) && !Truthy(Get(filters, "kecamatan"))) &&
       !(Truthy(Get(filters, "kecamatan")) && !Truthy(Get(filters, "kelurahan"))))
  {
    if Truthy(Get(filters, "wilayah")) && !Truthy(Get(filters, "kecamatan")) then "kecamatan"
    else if Truthy(Get(filters, "kecamatan")) && !Truthy(Get(filters, "kelurahan")) then "kelurahan"
    else if Truthy(Get(filters, "kelurahan")) then "lokasi_rw"
    else "wilayah"
  }

  /** The five regions of DKI Jakarta and the Thousand Islands regency. */
  const WilayahJakarta: seq<string> := [
    "Kota Adm. Jakarta Pusat", "Kota Adm. Jakarta Barat", "Kota Adm. Jakarta Selatan",
    "Kota Adm. Jakarta Timur", "Kota Adm. Jakarta Utara", "Kabupaten Adm. Kepulauan Seribu"]

  /** `isDKI(wilayah)` */
  predicate IsDki(wilayah: Value)
  {
    wilayah.Str? && wilayah.s in WilayahJakarta
  }

  predicate IsDigit(c: char)
  {
    '0' <= c <= '9'
  }

  /** The digits at the start of `s`. */
  function LeadingDigits(s: string): (r: string)
    ensures |r| <= |s| && r == s[..|r|]
    ensures forall c :: c in r ==> IsDigit(c)
    ensures |r| < |s| ==> !IsDigit(s[|r|])
  {
    if |s| > 0 && IsDigit(s[0]) then [s[0]] + LeadingDigits(s[1..]) else ""
  }

  /** `s.match(/\d+/)?.[0]`: the first maximal run of ASCII digits. */
  function FirstDigitRun(s: string): (r: Option<string>)
    ensures r.None? <==> forall c :: c in s ==> !IsDigit(c)
    ensures r.Some? ==> |r.value| > 0 && forall c :: c in r.value ==> IsDigit(c)
  {
    if |s| == 0 then None
    else if IsDigit(s[0]) then Some(LeadingDigits(s))
    else
      assert forall c :: c in s <==> c == s[0] || c in s[1..];
      FirstDigitRun(s[1..])
  }

  /** `parseInt(digits, 10)` for a run of decimal digits. */
  function DigitsValue(digits: string): nat
    requires forall c :: c in digits ==> IsDigit(c)
  {
    if |digits| == 0 then 0
    else
      var last := digits[|digits| - 1];
      assert last in digits && IsDigit(last);
      assert last as int >= '0' as int;
      DigitsValue(digits[..|digits| - 1]) * 10 + (digits[|digits| - 1] as int - '0' as int)
  }

  /** The number an RW label sorts by: its first digit run, or 0 without one. */
  function RwKey(v: Value): nat
  {
    match FirstDigitRun(ToStr(v))
    case None => 0
    case Some(run) => DigitsValue(run)
  }

  /** The leading digits of a digit run followed by a non-digit (or
      nothing) are that run. */
  lemma LeadingDigitsOf(d: string, rest: string)
    requires forall c :: c in d ==> IsDigit(c)
    requires |rest| == 0 || !IsDigit(rest[0])
    ensures LeadingDigits(d + rest) == d
  {
    var s := d + rest;
    assert LeadingDigits(s) == s[..|d|];
  }

  /** Whatever digit-free text comes first, the first digit run of a label
      is the run that follows it. */
  lemma {:induction false} FirstRunAfter(p: string, d: string, rest: string)
    requires forall c :: c in p ==> !IsDigit(c)
    requires |d| > 0 && forall c :: c in d ==> IsDigit(c)
    requires |rest| == 0 || !IsDigit(rest[0])
    ensures FirstDigitRun(p + d + rest) == Some(d)
    decreases |p|
  {
    var s := p + d + rest;
    if |p| == 0 {
      assert s == d + rest;
      LeadingDigitsOf(d, rest);
    } else {
      assert s[0] == p[0] && p[0] in p;
      assert s[1..] == p[1..] + d + rest;
      assert forall c :: c in p[1..] ==> c in p;
      FirstRunAfter(p[1..], d, rest);
    }
  }

  /** An RW label sorts by the value of the digit run after its
      digit-free prefix. */
  lemma RwKeyAfter(p: string, d: string, rest: string)
    requires forall c :: c in p ==> !IsDigit(c)
    requires |d| > 0 && forall c :: c in d ==> IsDigit(c)
    requires |rest| == 0 || !IsDigit(rest[0])
    ensures RwKey(Str(p + d + rest)) == DigitsValue(d)
  {
    FirstRunAfter(p, d, rest);
  }

  lemma RwKeyOfLabel()
    ensures RwKey(Str("RW 05")) == 5
  {
    assert DigitsValue("05") == 5 by {
      assert DigitsValue("05") == DigitsValue("0") * 10 + 5;
    }
    assert "RW " + "05" + "" == "RW 05";
    RwKeyAfter("RW ", "05", "");
  }

  lemma RwKeyOfNumber()
    ensures RwKey(Str("12")) == 12
  {
    assert DigitsValue("12") == 12 by {
      assert DigitsValue("12") == DigitsValue("1") * 10 + 2;
    }
    assert "" + "12" + "" == "12";
    RwKeyAfter("", "12", "");
  }

  /** "RW 05" sorts as 5, "12" as 12, and "-" (no digits) as 0. */
  lemma RwKeyExamples()
    ensures RwKey(Str("RW 05")) == 5
    ensures RwKey(Str("12")) == 12
    ensures RwKey(Str("-")) == 0
  {
    RwKeyOfLabel();
    RwKeyOfNumber();
  }

  /** The RW comparator `numA - numB`; `sort` itself puts `undefined` last
      without consulting the comparator. */
  predicate RwLe(a: Value, b: Value)
  {
    if b == Undefined then true
    else if a == Undefined then false
    else RwKey(a) <= RwKey(b)
  }

  lemma RwLeTotalPreorder()
    ensures TotalPreorder(RwLe)
  {
  }

  /** Whether the labels are ordered by RW number. */
  predicate SortsByRw(filters: Record)
  {
    XField(filters) == "lokasi_rw" && Truthy(Get(filters, "wilayah")) && IsDki(Get(filters, "wilayah"))
  }

  /** `labels`: the distinct values of the grouping field, ordered by RW
      number for RW labels inside Jakarta and by `sort()` otherwise. */
  function Labels(data: seq<Record>, filters: Record): (r: seq<Value>)
    ensures NoDups(r)
    ensures forall v :: v in r <==> (exists d :: d in data && Get(d, XField(filters)) == v)
    ensures SortsByRw(filters) ==> SortedBy(r, RwLe)
    ensures !SortsByRw(filters) ==> SortedBy(r, DefaultLe)
  {
    var x := XField(filters);
    var vals := MapSeq(data, FieldOf(x));
    forall v
      ensures v in vals <==> (exists d :: d in data && Get(d, x) == v)
    {
      MapMembership(data, FieldOf(x), v);
    }
    SortDistinct(vals, RwLe);
    SortDistinct(vals, DefaultLe);
    RwLeTotalPreorder();
    DefaultLeTotalPreorder();
    if SortsByRw(filters) then SortBy(Distinct(vals), RwLe)
    else SortBy(Distinct(vals), DefaultLe)
  }

  /** `String(d.periode_data)` */
  function YearText(): Record -> string
  {
    d => ToStr(Get(d, "periode_data"))
  }

  /** `tahunList`: the distinct years as text, in code-unit order. */
  function TahunList(data: seq<Record>): (r: seq<string>)
    ensures NoDups(r) && SortedBy(r, StrLe)
    ensures forall t :: t in r <==> (exists d :: d in data && YearText()(d) == t)
  {
    var vals := MapSeq(data, YearText());
    forall t
      ensures t in vals <==> (exists d :: d in data && YearText()(d) == t)
    {
      MapMembership(data, YearText(), t);
    }
    SortDistinct(vals, StrLe);
    StrLeTotalPreorder();
    SortBy(Distinct(vals), StrLe)
  }

  const Yellow: string := "rgba(255, 206, 86, 0.6)"
  const Green: string := "rgba(75, 192, 192, 0.6)"
  const Red: string := "rgba(255, 99, 132, 0.6)"

  /** The bar colour of a year. */
  function Color(tahun: string): (r: string)
    ensures r == Yellow <==> tahun == "2023"
    ensures r == Green <==> tahun == "2024"
    ensures r == Red <==> tahun != "2023" && tahun != "2024"
  {
    if tahun == "2023" then Yellow else if tahun == "2024" then Green else Red
  }

  /** The amount of a row when it is a number (`typeof ... === 'number'`). */
  function Jumlah(): Record -> int
  {
    d => if Get(d, JumlahKey).Num? then Get(d, JumlahKey).n else 0
  }

  /** The rows one bar adds up. */
  function CellRow(tahun: string, x: string, lab: Value): Record -> bool
  {
    d => YearText()(d) == tahun && Get(d, x) == lab && Get(d, JumlahKey).Num?
  }

  /** One bar: `data.filter(...).reduce((sum, d) => sum + d.jumlah, 0)`. */
  function Cell(data: seq<Record>, x: string, tahun: string, lab: Value): int
  {
    SumBy(FilterBy(data, CellRow(tahun, x, lab)), Jumlah())
  }

  /** A row's contribution to the bars of one year. */
  function YearAmount(tahun: string): Record -> int
  {
    d => if YearText()(d) == tahun then Jumlah()(d) else 0
  }

  /** A bar is the year's amount summed over the rows with that label. */
  lemma {:induction false} CellIsGroupSum(data: seq<Record>, x: string, tahun: string, lab: Value)
    ensures Cell(data, x, tahun, lab) == SumWhere(data, FieldOf(x), lab, YearAmount(tahun))
  {
    if |data| > 0 {
      var init, d := data[..|data| - 1], data[|data| - 1];
      assert data == init + [d];
      CellIsGroupSum(init, x, tahun, lab);
      FilterSnoc(init, d, CellRow(tahun, x, lab));
      assert data[..|data| - 1] == init;
      if CellRow(tahun, x, lab)(d) {
        SumBySnoc(FilterBy(init, CellRow(tahun, x, lab)), d, Jumlah());
        assert YearAmount(tahun)(d) == Jumlah()(d);
      } else {
        assert FilterBy(data, CellRow(tahun, x, lab)) == FilterBy(init, CellRow(tahun, x, lab));
        assert Get(d, x) == lab ==> YearAmount(tahun)(d) == 0;
      }
    }
  }

  /** A year's amount over all rows is the total of that year's group. */
  lemma {:induction false} YearAmountIsGroupSum(data: seq<Record>, tahun: string)
    ensures SumBy(data, YearAmount(tahun)) == SumWhere(data, YearText(), tahun, Jumlah())
  {
    if |data| > 0 {
      YearAmountIsGroupSum(data[..|data| - 1], tahun);
    }
  }

  datatype Dataset = Dataset(title: string, data: seq<int>, backgroundColor: string)

  /** One year's dataset: one bar per label, aligned with `labels`. */
  function YearDataset(data: seq<Record>, x: string, labels: seq<Value>, tahun: string): (ds: Dataset)
    ensures |ds.data| == |labels|
    ensures forall j :: 0 <= j < |labels| ==> ds.data[j] == Cell(data, x, tahun, labels[j])
    ensures ds.backgroundColor == Color(tahun) && ds.title == "Tahun " + tahun
  {
    Dataset("Tahun " + tahun, seq(|labels|, j requires 0 <= j < |labels| => Cell(data, x, tahun, labels[j])), Color(tahun))
  }

  /** `datasets`: one per year of `tahunList`, in that order. */
  function Datasets(data: seq<Record>, filters: Record): (r: seq<Dataset>)
    ensures |r| == |TahunList(data)|
    ensures forall i :: 0 <= i < |r| ==> r[i] == YearDataset(data, XField(filters), Labels(data, filters), TahunList(data)[i])
  {
    var years := TahunList(data);
    seq(|years|, i requires 0 <= i < |years| => YearDataset(data, XField(filters), Labels(data, filters), years[i]))
  }

  /** A year's bars add up to the year's total over all rows. */
  lemma YearBarsTotal(data: seq<Record>, filters: Record, tahun: string)
    ensures Sum(YearDataset(data, XField(filters), Labels(data, filters), tahun).data) ==
      SumWhere(data, YearText(), tahun, Jumlah())
  {
    var x := XField(filters);
    var labels := Labels(data, filters);
    var ds := YearDataset(data, x, labels, tahun);
    forall j | 0 <= j < |labels|
      ensures ds.data[j] == SumWhere(data, FieldOf(x), labels[j], YearAmount(tahun))
    {
      CellIsGroupSum(data, x, tahun, labels[j]);
    }
    forall d | d in data
      ensures FieldOf(x)(d) in labels
    {
    }
    PartitionSum(data, FieldOf(x), labels, ds.data, YearAmount(tahun));
    YearAmountIsGroupSum(data, tahun);
  }

  /** The sum of each dataset's bars, one per year. */
  function YearTotals(data: seq<Record>, filters: Record): (r: seq<int>)
    ensures |r| == |Datasets(data, filters)|
    ensures forall i :: 0 <= i < |r| ==> r[i] == Sum(Datasets(data, filters)[i].data)
  {
    var dss := Datasets(data, filters);
    seq(|dss|, i requires 0 <= i < |dss| => Sum(dss[i].data))
  }

  /** Nothing is lost or counted twice: all bars of all datasets add up to
      the sum of the numeric amounts over every row. */
  lemma ChartConservesTotal(data: seq<Record>, filters: Record)
    ensures Sum(YearTotals(data, filters)) == SumBy(data, Jumlah())
  {
    var years := TahunList(data);
    var totals := YearTotals(data, filters);
    forall i | 0 <= i < |years|
      ensures totals[i] == SumWhere(data, YearText(), years[i], Jumlah())
    {
      YearBarsTotal(data, filters, years[i]);
    }
    forall d | d in data
      ensures YearText()(d) in years
    {
    }
    PartitionSum(data, YearText(), years, totals, Jumlah());
  }
}
