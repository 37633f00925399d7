/** The landing page: five single-valued selections that start empty, the
    `filters` object handed to every card (an empty selection reads as
    'Semua'), the dependent option lists of its five dropdowns, and the
    sample rows the page renders. */
module App {
  import opened Js
  import opened Seqs
  import opened SemuaFilter

  /** The five selection values at one moment. */
  datatype Choice = Choice(tahun: string, wilayah: string, kecamatan: string, kelurahan: string, rw: string)

  /** The page's five `useState` selections. Each dropdown sets only its
      own selection; there is no cascade. */
  class Selections {
    var tahun: string
    var wilayah: string
    var kecamatan: string
    var kelurahan: string
    var rw: string

    function Snapshot(): Choice
      reads this
    {
      Choice(tahun, wilayah, kecamatan, kelurahan, rw)
    }

    constructor ()
      ensures Snapshot() == Choice("", "", "", "", "")
    {
      tahun := "";
      wilayah := "";
      kecamatan := "";
      kelurahan := "";
      rw := "";
    }

    method SetTahun(v: string)
      modifies this
      ensures Snapshot() == old(Snapshot()).(tahun := v)
    {
      tahun := v;
    }

    method SetWilayah(v: string)
      modifies this
      ensures Snapshot() == old(Snapshot()).(wilayah := v)
    {
      wilayah := v;
    }

    method SetKecamatan(v: string)
      modifies this
      ensures Snapshot() == old(Snapshot()).(kecamatan := v)
    {
      kecamatan := v;
    }

    method SetKelurahan(v: string)
      modifies this
      ensures Snapshot() == old(Snapshot()).(kelurahan := v)
    {
      kelurahan := v;
    }

    method SetRw(v: string)
      modifies this
      ensures Snapshot() == old(Snapshot()).(rw := v)
    {
      rw := v;
    }

    /** The reset button. */
    method OnReset()
      modifies this
      ensures Snapshot() == Choice("", "", "", "", "")
    {
      tahun := "";
      wilayah := "";
      kecamatan := "";
      kelurahan := "";
      rw := "";
    }
  }

  /** `x === '' ? 'Semua' : x` */
  function SemuaIfEmpty(x: string): string
  {
    if x == "" then Semua else x
  }

  /** The `filters` object. */
  function Filters(c: Choice): Record
  {
    [("tahun", Str(SemuaIfEmpty(c.tahun))), ("wilayah", Str(SemuaIfEmpty(c.wilayah))),
     ("kecamatan", Str(SemuaIfEmpty(c.kecamatan))), ("kelurahan", Str(SemuaIfEmpty(c.kelurahan))),
     ("rw", Str(SemuaIfEmpty(c.rw)))]
  }

  /** Each filter field is 'Semua' for an empty selection and the selection
      itself otherwise. */
  lemma FiltersMapping(c: Choice)
    ensures Get(Filters(c), "tahun") == Str(if c.tahun == "" then Semua else c.tahun)
    ensures Get(Filters(c), "wilayah") == Str(if c.wilayah == "" then Semua else c.wilayah)
    ensures Get(Filters(c), "kecamatan") == Str(if c.kecamatan == "" then Semua else c.kecamatan)
    ensures Get(Filters(c), "kelurahan") == Str(if c.kelurahan == "" then Semua else c.kelurahan)
    ensures Get(Filters(c), "rw") == Str(if c.rw == "" then Semua else c.rw)
  {
    var f := Filters(c);
    GetAt(f, "tahun", 0);
    GetAt(f, "wilayah", 1);
    GetAt(f, "kecamatan", 2);
    assert "kecamatan"[2] != "kelurahan"[2];
    GetAt(f, "kelurahan", 3);
    GetAt(f, "rw", 4);
  }

  /** After a reset every card sees every row. */
  lemma ResetShowsAllRows(data: seq<Record>)
    ensures FilterRows(data, Filters(Choice("", "", "", "", ""))) == data
  {
    var f := Filters(Choice("", "", "", "", ""));
    FiltersMapping(Choice("", "", "", "", ""));
    forall k | k in FilterKeys
      ensures Get(f, k) == Str(Semua)
    {
      var i :| 0 <= i < |FilterKeys| && FilterKeys[i] == k;
    }
    AllSemuaKeepsAll(data, f);
  }

  /** The levels of the region hierarchy. */
  predicate IsRegionLevel(level: string)
  {
    level == "wilayah" || level == "kecamatan" || level == "kelurahan" || level == "rw"
  }

  /** `getDependentOptions(level)`: the distinct years of all rows; the
      distinct values of the level among the rows passing the five filters;
      nothing for any other level. */
  function DependentOptions(data: seq<Record>, filters: Record, level: string): (r: seq<Value>)
    ensures NoDups(r)
    ensures level == "tahun" ==>
      forall v :: v in r <==> (exists d :: d in data && Get(d, "tahun") == v)
    ensures IsRegionLevel(level) ==>
      forall v :: v in r <==> (exists d :: d in data && Passes(filters, d) && Get(d, level) == v)
    ensures level != "tahun" && !IsRegionLevel(level) ==> r == []
  {
    if level == "tahun" then
      DistinctValues(data, "tahun")
    else if IsRegionLevel(level) then
      var filtered := FilterRows(data, filters);
      DistinctValues(filtered, level)
    else []
  }

  /** `[...new Set(rows.map(d => d[key]))]` */
  function DistinctValues(rows: seq<Record>, key: string): (r: seq<Value>)
    ensures NoDups(r)
    ensures forall v :: v in r <==> (exists d :: d in rows && Get(d, key) == v)
  {
    var vals := MapSeq(rows, FieldOf(key));
    forall v
      ensures v in vals <==> (exists d :: d in rows && Get(d, key) == v)
    {
      MapMembership(rows, FieldOf(key), v);
    }
    Distinct(vals)
  }

  /** Every option list lists values in the order they first occur. */
  lemma OptionsInFirstSeenOrder(data: seq<Record>, filters: Record, level: string)
    requires level == "tahun" || IsRegionLevel(level)
    ensures level == "tahun" ==>
      IsSubseq(DependentOptions(data, filters, level), MapSeq(data, FieldOf(level)))
    ensures IsRegionLevel(level) ==>
      IsSubseq(DependentOptions(data, filters, level), MapSeq(FilterRows(data, filters), FieldOf(level)))
  {
    if level == "tahun" {
      DistinctIsSubseq(MapSeq(data, FieldOf(level)));
    } else {
      DistinctIsSubseq(MapSeq(FilterRows(data, filters), FieldOf(level)));
    }
  }

  /** The year list does not depend on the other selections. */
  lemma YearOptionsIgnoreFilters(data: seq<Record>, f: Record, g: Record)
    ensures DependentOptions(data, f, "tahun") == DependentOptions(data, g, "tahun")
  {
  }

  /** A level whose filter is pinned to a value offers that value or nothing. */
  lemma PinnedLevelOffersItself(data: seq<Record>, filters: Record, level: string)
    requires IsRegionLevel(level) && Get(filters, level) != Str(Semua)
    ensures DependentOptions(data, filters, level) == [] ||
            DependentOptions(data, filters, level) == [Get(filters, level)]
  {
    var r := DependentOptions(data, filters, level);
    forall v | v in r
      ensures v == Get(filters, level)
    {
      var d :| d in data && Passes(filters, d) && Get(d, level) == v;
    }
    NoDupsSingleValue(r, Get(filters, level));
  }

  function Row(tahun: string, wilayah: string, kecamatan: string, kelurahan: string, rw: string,
               namaKegiatan: string, volume: string, satuan: string, rwKumuh: int, cap: int, cip: int,
               anggaranCap: int, anggaranCip: int): Record
  {
    [("tahun", Str(tahun)), ("wilayah", Str(wilayah)), ("kecamatan", Str(kecamatan)),
     ("kelurahan", Str(kelurahan)), ("rw", Str(rw)), ("nama_kegiatan", Str(namaKegiatan)),
     ("volume", Str(volume)), ("satuan", Str(satuan)), ("jumlah_rw_kumuh", Num(rwKumuh)),
     ("jumlah_cap", Num(cap)), ("jumlah_cip", Num(cip)), ("anggaran_cap", Num(anggaranCap)),
     ("anggaran_cip", Num(anggaranCip))]
  }

  /** The page's sample `data`. */
  function SampleData(): seq<Record>
  {
    [Row("2024", "Pusat", "Gambir", "Kelurahan A", "01", "APAR", "1", "unit", 3, 1, 1, 1200000, 1175000),
     Row("2024", "Barat", "Cempaka Putih", "Kelurahan D", "05", "Pekerjaan Utilitas", "1", "buah", 4, 2, 1, 3000000, 1485000),
     Row("2024", "Selatan", "Tebet", "Kelurahan F", "07", "Pekerjaan Papan Nama Jalan", "3", "unit", 6, 3, 1, 4500000, 1125000),
     Row("2024", "Utara", "Kelapa Gading", "Kelurahan H", "09", "Cermin Cembung", "1", "buah", 5, 1, 1, 5000000, 4500000)]
  }

  /** Where a sample row keeps its year and region. */
  lemma RowHead(r: Record)
    requires |r| >= 2 && r[0].0 == "tahun" && r[1].0 == "wilayah"
    ensures Get(r, "tahun") == r[0].1 && Get(r, "wilayah") == r[1].1
  {
    GetAt(r, "wilayah", 1);
  }

  /** The region column of the sample rows. */
  lemma SampleWilayah()
    ensures MapSeq(SampleData(), FieldOf("wilayah")) == [Str("Pusat"), Str("Barat"), Str("Selatan"), Str("Utara")]
  {
    var d := SampleData();
    RowHead(d[0]);
    RowHead(d[1]);
    RowHead(d[2]);
    RowHead(d[3]);
  }

  /** The year column of the sample rows. */
  lemma SampleTahun()
    ensures forall v :: v in MapSeq(SampleData(), FieldOf("tahun")) <==> v == Str("2024")
  {
    var d := SampleData();
    RowHead(d[0]);
    RowHead(d[1]);
    RowHead(d[2]);
    RowHead(d[3]);
    assert MapSeq(d, FieldOf("tahun"))[0] == Str("2024");
  }

  /** With nothing selected, a region list is the level's distinct values
      over all rows. */
  lemma ResetOptions(data: seq<Record>, level: string)
    requires IsRegionLevel(level)
    ensures DependentOptions(data, Filters(Choice("", "", "", "", "")), level) ==
      Distinct(MapSeq(data, FieldOf(level)))
  {
    ResetShowsAllRows(data);
  }

  /** A column holding a single value yields that value once. */
  lemma SingleValueColumn(vals: seq<Value>, v: Value)
    requires forall x :: x in vals <==> x == v
    ensures Distinct(vals) == [v]
  {
    NoDupsSingleValue(Distinct(vals), v);
    assert v in Distinct(vals);
  }

  /** The four sample regions differ in their first letters. */
  lemma SampleRegionsDistinct()
    ensures NoDups([Str("Pusat"), Str("Barat"), Str("Selatan"), Str("Utara")])
  {
    var r := [Str("Pusat"), Str("Barat"), Str("Selatan"), Str("Utara")];
    assert r[0].s[0] == 'P' && r[1].s[0] == 'B' && r[2].s[0] == 'S' && r[3].s[0] == 'U';
  }

  /** With nothing selected, rows whose region column reads Pusat, Barat,
      Selatan, Utara and whose years are all 2024 offer those regions in
      that order and the one year. */
  lemma ResetOptionsOfColumns(data: seq<Record>)
    requires MapSeq(data, FieldOf("wilayah")) == [Str("Pusat"), Str("Barat"), Str("Selatan"), Str("Utara")]
    requires forall v :: v in MapSeq(data, FieldOf("tahun")) <==> v == Str("2024")
    ensures DependentOptions(data, Filters(Choice("", "", "", "", "")), "wilayah") ==
      [Str("Pusat"), Str("Barat"), Str("Selatan"), Str("Utara")]
    ensures DependentOptions(data, Filters(Choice("", "", "", "", "")), "tahun") == [Str("2024")]
  {
    ResetOptions(data, "wilayah");
    SampleRegionsDistinct();
    DistinctOfNoDups([Str("Pusat"), Str("Barat"), Str("Selatan"), Str("Utara")]);
    SingleValueColumn(MapSeq(data, FieldOf("tahun")), Str("2024"));
  }

  /** With nothing selected, the wilayah dropdown offers the four sample
      regions in row order, and the year dropdown offers just 2024. */
  lemma SampleOptions()
    ensures DependentOptions(SampleData(), Filters(Choice("", "", "", "", "")), "wilayah") ==
      [Str("Pusat"), Str("Barat"), Str("Selatan"), Str("Utara")]
    ensures DependentOptions(SampleData(), Filters(Choice("", "", "", "", "")), "tahun") == [Str("2024")]
  {
    SampleWilayah();
    SampleTahun();
    ResetOptionsOfColumns(SampleData());
  }
}
