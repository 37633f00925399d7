/** The row filter that DonutChartCard, TableDetailCard and AllDataTable
    share: each of the five region/year fields either carries the sentinel
    'Semua' in the filter object or must equal the row's field (`===`). */
module SemuaFilter {
  import opened Js
  import opened Seqs

  const Semua: string := "Semua"

  /** The five fields the filter object can restrict. */
  const FilterKeys: seq<string> := ["tahun", "wilayah", "kecamatan", "kelurahan", "rw"]

  /** `filters.k === 'Semua' || row.k === filters.k` */
  predicate FieldPasses(filters: Record, row: Record, k: string)
  {
    Get(filters, k) == Str(Semua) || Get(row, k) == Get(filters, k)
  }

  predicate Passes(filters: Record, row: Record)
  {
    FieldPasses(filters, row, "tahun") &&
    FieldPasses(filters, row, "wilayah") &&
    FieldPasses(filters, row, "kecamatan") &&
    FieldPasses(filters, row, "kelurahan") &&
    FieldPasses(filters, row, "rw")
  }

  /** The callback `data.filter` is given. */
  function Keep(filters: Record): Record -> bool
  {
    row => Passes(filters, row)
  }

  /** `data.filter(...)` with the five-field predicate: exactly the passing
      rows, in their original order. */
  function FilterRows(data: seq<Record>, filters: Record): (r: seq<Record>)
    ensures forall row {:trigger row in r} :: row in r <==> row in data && Passes(filters, row)
    ensures IsSubseq(r, data)
    ensures |r| <= |data|
  {
    FilterIsSubseq(data, Keep(filters));
    FilterBy(data, Keep(filters))
  }

  /** A row passes iff every filtered field is 'Semua' or matches. */
  lemma PassesIff(filters: Record, row: Record)
    ensures Passes(filters, row) <==>
      forall k :: k in FilterKeys ==> Get(filters, k) == Str(Semua) || Get(row, k) == Get(filters, k)
  {
    assert "tahun" in FilterKeys && "wilayah" in FilterKeys && "kecamatan" in FilterKeys;
    assert "kelurahan" in FilterKeys && "rw" in FilterKeys;
    forall k | k in FilterKeys
      ensures k == "tahun" || k == "wilayah" || k == "kecamatan" || k == "kelurahan" || k == "rw"
    {
      var i :| 0 <= i < |FilterKeys| && FilterKeys[i] == k;
    }
  }

  /** Filters that are 'Semua' everywhere keep every row. */
  lemma AllSemuaKeepsAll(data: seq<Record>, filters: Record)
    requires forall k :: k in FilterKeys ==> Get(filters, k) == Str(Semua)
    ensures FilterRows(data, filters) == data
  {
    assert forall row :: Passes(filters, row) by {
      assert "tahun" in FilterKeys && "wilayah" in FilterKeys && "kecamatan" in FilterKeys;
      assert "kelurahan" in FilterKeys && "rw" in FilterKeys;
    }
    FilterKeepsAll(data, Keep(filters));
  }

  /** Filtering the filtered rows again changes nothing. */
  lemma FilterRowsIdempotent(data: seq<Record>, filters: Record)
    ensures FilterRows(FilterRows(data, filters), filters) == FilterRows(data, filters)
  {
    FilterIdempotent(data, Keep(filters));
  }

  /** With the default `filters = {}` every `filters.k` is `undefined`, so a
      row passes only when it lacks all five fields. */
  lemma EmptyFiltersKeepOnlyBareRows(data: seq<Record>)
    ensures forall row :: row in FilterRows(data, []) <==>
      row in data && forall k :: k in FilterKeys ==> Get(row, k) == Undefined
  {
    forall row
      ensures Passes([], row) <==> forall k :: k in FilterKeys ==> Get(row, k) == Undefined
    {
      PassesIff([], row);
    }
  }
}
