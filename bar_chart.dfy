/** The per-region bar chart: the rows the server aggregated are unzipped,
    in a `forEach`, into five arrays aligned by position. */
module BarChart {
  import opened Js
  import opened Seqs

  datatype Processed = Processed(
    labels: seq<Value>, jumlahRwKumuh: seq<Value>, jumlahCap: seq<Value>,
    jumlahCip: seq<Value>, anggaranCip: seq<Value>)

  /** The values of one field, row by row. */
  function Column(rows: seq<Record>, key: string): (c: seq<Value>)
    ensures |c| == |rows| && forall i :: 0 <= i < |rows| ==> c[i] == Get(rows[i], key)
  {
    MapSeq(rows, FieldOf(key))
  }

  /** Unzipping concatenated rows concatenates the columns. */
  lemma ColumnAppend(a: seq<Record>, b: seq<Record>, key: string)
    ensures Column(a + b, key) == Column(a, key) + Column(b, key)
  {
  }

  /** `getProcessedData`: `data` is `None` when it is not an array. Entry i
      of every array comes from row i; nothing is merged or reordered. */
  method GetProcessedData(data: Option<seq<Record>>) returns (p: Processed)
    ensures data.None? ==> p == Processed([], [], [], [], [])
    ensures data.Some? ==>
      p.labels == Column(data.value, "label") &&
      p.jumlahRwKumuh == Column(data.value, "jumlah_rw_kumuh") &&
      p.jumlahCap == Column(data.value, "jumlah_rw_cap") &&
      p.jumlahCip == Column(data.value, "jumlah_rw_cip") &&
      p.anggaranCip == Column(data.value, "total_anggaran_cip")
  {
    if data.None? {
      return Processed([], [], [], [], []);
    }
    var rows := data.value;
    var labels, jumlahRwKumuh, jumlahCap, jumlahCip, anggaranCip := [], [], [], [], [];
    var i := 0;
    while i < |rows|
      invariant 0 <= i <= |rows|
      invariant labels == Column(rows[..i], "label")
      invariant jumlahRwKumuh == Column(rows[..i], "jumlah_rw_kumuh")
      invariant jumlahCap == Column(rows[..i], "jumlah_rw_cap")
      invariant jumlahCip == Column(rows[..i], "jumlah_rw_cip")
      invariant anggaranCip == Column(rows[..i], "total_anggaran_cip")
    {
      var item := rows[i];
      assert rows[..i + 1] == rows[..i] + [item];
      labels := labels + [Get(item, "label")];
      jumlahRwKumuh := jumlahRwKumuh + [Get(item, "jumlah_rw_kumuh")];
      jumlahCap := jumlahCap + [Get(item, "jumlah_rw_cap")];
      jumlahCip := jumlahCip + [Get(item, "jumlah_rw_cip")];
      anggaranCip := anggaranCip + [Get(item, "total_anggaran_cip")];
      i := i + 1;
    }
    assert rows[..|rows|] == rows;
    p := Processed(labels, jumlahRwKumuh, jumlahCap, jumlahCip, anggaranCip);
  }

  /** The hidden `x1` axis: `labels.map((_, i) => i)`. */
  function X1Labels(labels: seq<Value>): (r: seq<nat>)
    ensures |r| == |labels| && forall i :: 0 <= i < |r| ==> r[i] == i
  {
    seq(|labels|, i requires 0 <= i < |labels| => i)
  }
}
