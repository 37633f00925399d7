/** The CIP detail table: the rows passing the five filters, one table row
    each with fallbacks for missing cells, and a footer with the total
    budget shown only when some row passes. */
module TableDetail {
  import opened Js
  import opened Seqs
  import opened Sums
  import opened SemuaFilter

  const DefaultName: string := "Pekerjaan Jalan Lingkungan (ASPAL)"
  const Dash: string := "-"

  /** `item.anggaran_cip || 0` for a numeric or missing amount. */
  function Anggaran(): Record -> int
  {
    item => if Get(item, "anggaran_cip").Num? then Get(item, "anggaran_cip").n else 0
  }

  /** `totalAnggaran`: the CIP budget summed over the passing rows. */
  function TotalAnggaran(data: seq<Record>, filters: Record): int
  {
    SumBy(FilterRows(data, filters), Anggaran())
  }

  /** With no passing row the total is 0. */
  lemma TotalOfNothingIsZero(data: seq<Record>, filters: Record)
    requires forall item :: item in data ==> !Passes(filters, item)
    ensures TotalAnggaran(data, filters) == 0
  {
    var rows := FilterRows(data, filters);
    if |rows| > 0 {
      assert rows[0] in rows;
    }
  }

  /** `x || fallback` */
  function OrElse(x: Value, fallback: Value): (r: Value)
    ensures Truthy(x) ==> r == x
    ensures !Truthy(x) ==> r == fallback
  {
    if Truthy(x) then x else fallback
  }

  /** The four cells of one table row. */
  datatype Cells = Cells(name: Value, volume: Value, satuan: Value, anggaran: int)

  function CellsFor(item: Record): Cells
  {
    Cells(OrElse(Get(item, "nama_kegiatan"), Str(DefaultName)),
          OrElse(Get(item, "jumlah_cip"), Str(Dash)),
          OrElse(Get(item, "satuan"), Str(Dash)),
          Anggaran()(item))
  }

  function CellsOf(): Record -> Cells
  {
    item => CellsFor(item)
  }

  /** The table body: the data rows, or the single 'Tidak ada data' row. */
  datatype Body = DataRows(rows: seq<Cells>) | NoDataRow

  datatype Detail = Detail(body: Body, footer: Option<int>)

  /** The card. The body lists every passing row in order, and the footer
      appears exactly when it does, showing the sum of the amount column. */
  function TableDetailCard(data: seq<Record>, filters: Record): (d: Detail)
    ensures d.body.NoDataRow? <==> FilterRows(data, filters) == []
    ensures d.footer.Some? <==> d.body.DataRows?
    ensures d.body.DataRows? ==>
      |d.body.rows| == |FilterRows(data, filters)| &&
      forall i :: 0 <= i < |d.body.rows| ==> d.body.rows[i] == CellsOf()(FilterRows(data, filters)[i])
    ensures d.footer.Some? ==> d.footer.value == TotalAnggaran(data, filters)
  {
    var filtered := FilterRows(data, filters);
    if |filtered| > 0 then Detail(DataRows(MapSeq(filtered, CellsOf())), Some(TotalAnggaran(data, filters)))
    else Detail(NoDataRow, None)
  }

  /** The footer is the sum of the amounts shown in the last column. */
  lemma FooterIsColumnSum(data: seq<Record>, filters: Record)
    requires TableDetailCard(data, filters).footer.Some?
    ensures TableDetailCard(data, filters).footer.value ==
      Sum(MapSeq(TableDetailCard(data, filters).body.rows, (c: Cells) => c.anggaran))
  {
    var filtered := FilterRows(data, filters);
    var rows := TableDetailCard(data, filters).body.rows;
    assert MapSeq(rows, (c: Cells) => c.anggaran) == MapSeq(filtered, Anggaran());
    SumByIsSumOfMap(filtered, Anggaran());
  }

  /** The fallbacks of a row's cells. */
  lemma CellFallbacks(item: Record)
    ensures Get(item, "nama_kegiatan") == Undefined ==> CellsFor(item).name == Str(DefaultName)
    ensures Get(item, "jumlah_cip") == Undefined ==> CellsFor(item).volume == Str(Dash)
    ensures Get(item, "satuan") == Undefined ==> CellsFor(item).satuan == Str(Dash)
    ensures Get(item, "anggaran_cip") == Undefined ==> CellsFor(item).anggaran == 0
  {
  }
}
