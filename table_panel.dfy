/** The raw-data table's free-text search: a row is shown when the text of
    all its values, joined with spaces and lower-cased, contains the
    lower-cased search text. */
module TablePanel {
  import opened Js
  import opened Seqs

  /** `Object.values(item).join(' ')` */
  function RowText(item: Record): string
  {
    Join(MapSeq(Values(item), JoinPiece), " ")
  }

  /** The callback `data.filter` is given for `searchText`. */
  function MatchesSearch(searchText: string): Record -> bool
  {
    item => Contains(Lower(RowText(item)), Lower(searchText))
  }

  /** `filteredData`: the matching rows in their original order. */
  function FilteredData(data: seq<Record>, searchText: string): (r: seq<Record>)
    ensures forall item {:trigger item in r} :: item in r <==>
      item in data && Contains(Lower(RowText(item)), Lower(searchText))
    ensures IsSubseq(r, data)
  {
    FilterIsSubseq(data, MatchesSearch(searchText));
    FilterBy(data, MatchesSearch(searchText))
  }

  /** An empty search shows every row, in order. */
  lemma EmptySearchKeepsAll(data: seq<Record>)
    ensures FilteredData(data, "") == data
  {
    forall item | item in data
      ensures MatchesSearch("")(item)
    {
      EmptyContained(Lower(RowText(item)));
    }
    FilterKeepsAll(data, MatchesSearch(""));
  }

  /** Typing more narrows the result: a search text containing another
      shows a subsequence of the rows the shorter one shows. */
  lemma SearchMonotone(data: seq<Record>, shorter: string, longer: string)
    requires Contains(longer, shorter)
    ensures IsSubseq(FilteredData(data, longer), FilteredData(data, shorter))
  {
    LowerPreservesContains(longer, shorter);
    forall item | item in data && MatchesSearch(longer)(item)
      ensures MatchesSearch(shorter)(item)
    {
      ContainsTransitive(Lower(RowText(item)), Lower(longer), Lower(shorter));
    }
    FilterMonotone(data, MatchesSearch(longer), MatchesSearch(shorter));
  }

  /** The text of a row with two string fields is the two strings joined
      by a space. */
  lemma TwoFieldText(k1: string, x: string, k2: string, y: string)
    ensures RowText([(k1, Str(x)), (k2, Str(y))]) == x + " " + y
  {
    var item := [(k1, Str(x)), (k2, Str(y))];
    var parts := MapSeq(Values(item), JoinPiece);
    assert parts[0] == x && parts[1] == y;
    assert parts[..1] == [x];
    assert Join(parts, " ") == Join([x], " ") + " " + y;
  }

  /** A match may run across the space between two fields: the last letter
      of one, the space and the first letter of the next are found. */
  lemma MatchAcrossFields(k1: string, x: string, k2: string, y: string)
    requires |x| > 0 && |y| > 0
    ensures MatchesSearch([x[|x| - 1], ' ', y[0]])([(k1, Str(x)), (k2, Str(y))])
  {
    TwoFieldText(k1, x, k2, y);
    var t := x + " " + y;
    var q := [x[|x| - 1], ' ', y[0]];
    assert t[|x| - 1..|x| + 2] == q;
    assert OccursAt(t, q, |x| - 1);
    LowerPreservesContains(t, q);
    var item := [(k1, Str(x)), (k2, Str(y))];
    assert Contains(Lower(RowText(item)), Lower(q));
    assert MatchesSearch(q)(item);
  }

  /** The six columns, as (header, field) pairs. */
  const Columns: seq<(string, string)> := [
    ("Periode", "periode_data"), ("Wilayah", "wilayah"), ("Kecamatan", "kecamatan"),
    ("Kelurahan", "kelurahan"), ("Lokasi RW", "lokasi_rw"),
    ("Jumlah CIP", "jumlah_peningkatan_psu_dilaksanakan")]

  /** The cells of a row: one per column, each its column's field. */
  function RowCells(row: Record): (r: seq<Value>)
    ensures |r| == 6
    ensures forall j :: 0 <= j < 6 ==> r[j] == Get(row, Columns[j].1)
  {
    seq(|Columns|, j requires 0 <= j < |Columns| => Get(row, Columns[j].1))
  }
}
