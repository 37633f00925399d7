/** The budget donut: the rows passing the five filters are grouped by
    activity name in a `forEach` over a dictionary, one slice per name, with
    the grand total in the middle of the ring. */
module Donut {
  import opened Js
  import opened Seqs
  import opened Sums
  import opened SemuaFilter

  const CapTitle: string := "Persentase Anggaran CAP"

  /** Which amount the card adds up: only the exact CAP title picks
      `anggaran_cap`. */
  function AnggaranKey(title: string): (r: string)
    ensures r == "anggaran_cap" <==> title == CapTitle
    ensures r == "anggaran_cip" <==> title != CapTitle
  {
    if title == CapTitle then "anggaran_cap" else "anggaran_cip"
  }

  /** `item.nama_kegiatan || 'Lainnya'`, as the dictionary key it becomes. */
  function Label(item: Record): string
  {
    if Truthy(Get(item, "nama_kegiatan")) then ToStr(Get(item, "nama_kegiatan")) else "Lainnya"
  }

  function LabelOf(): Record -> string
  {
    item => Label(item)
  }

  /** `item[anggaranKey] || 0` for a numeric or missing amount. */
  function AmountOf(item: Record, key: string): int
  {
    if Get(item, key).Num? then Get(item, key).n else 0
  }

  function Amount(key: string): Record -> int
  {
    item => AmountOf(item, key)
  }

  lemma LabelAndAmountFallbacks(item: Record, key: string)
    ensures !Truthy(Get(item, "nama_kegiatan")) ==> LabelOf()(item) == "Lainnya"
    ensures Get(item, "nama_kegiatan").Str? && Get(item, "nama_kegiatan").s != "" ==>
      LabelOf()(item) == Get(item, "nama_kegiatan").s
    ensures Get(item, key) == Undefined ==> Amount(key)(item) == 0
  {
  }

  /** `aggregation[name] = (aggregation[name] || 0) + value` */
  function Bump(aggregation: map<string, int>, name: string, value: int): map<string, int>
  {
    aggregation[name := (if name in aggregation then aggregation[name] else 0) + value]
  }

  /** The dictionary after the rows `seen`, one `Bump` per row. */
  ghost function Tally(seen: seq<Record>, nameOf: Record -> string, amount: Record -> int): map<string, int>
    decreases |seen|
  {
    if seen == [] then map[]
    else
      var x := seen[|seen| - 1];
      Bump(Tally(seen[..|seen| - 1], nameOf, amount), nameOf(x), amount(x))
  }

  /** The loop over the filtered rows: `aggregation[name] =
      (aggregation[name] || 0) + value`, with the row's name and amount
      given by `nameOf` and `amount`. `keys` is the dictionary's insertion
      order, which `Object.keys` and `Object.values` follow. */
  method Aggregate(rows: seq<Record>, nameOf: Record -> string, amount: Record -> int)
    returns (labels: seq<string>, values: seq<int>)
    ensures labels == Distinct(MapSeq(rows, nameOf))
    ensures |values| == |labels|
    ensures forall j :: 0 <= j < |labels| ==> values[j] == SumWhere(rows, nameOf, labels[j], amount)
  {
    var aggregation: map<string, int> := map[];
    var keys: seq<string> := [];
    var i := 0;
    while i < |rows|
      invariant 0 <= i <= |rows|
      invariant aggregation == Tally(rows[..i], nameOf, amount)
      invariant keys == Distinct(MapSeq(rows[..i], nameOf))
    {
      var item := rows[i];
      var name := nameOf(item);
      var value := amount(item);
      TallyPrefix(rows, i, nameOf, amount);
      if name !in aggregation {
        keys := keys + [name];
      }
      aggregation := Bump(aggregation, name, value);
      i := i + 1;
    }
    assert rows[..|rows|] == rows;
    TallyCoversKeys(rows, nameOf, amount);
    labels := keys;
    values := seq(|keys|, j requires 0 <= j < |keys| => aggregation[keys[j]]);
  }

  /** One more row: one more `Bump`, and its name joins the keys when new. */
  lemma TallyPrefix(rows: seq<Record>, i: nat, nameOf: Record -> string, amount: Record -> int)
    requires i < |rows|
    ensures Tally(rows[..i + 1], nameOf, amount) ==
      Bump(Tally(rows[..i], nameOf, amount), nameOf(rows[i]), amount(rows[i]))
    ensures Distinct(MapSeq(rows[..i + 1], nameOf)) ==
      if nameOf(rows[i]) in Tally(rows[..i], nameOf, amount) then Distinct(MapSeq(rows[..i], nameOf))
      else Distinct(MapSeq(rows[..i], nameOf)) + [nameOf(rows[i])]
  {
    TakeSnoc(rows, i);
    assert rows[..i + 1][..i] == rows[..i];
    MapSnoc(rows[..i], rows[i], nameOf);
    DistinctSnoc(MapSeq(rows[..i], nameOf), nameOf(rows[i]));
    TallyMeaning(rows[..i], nameOf, amount);
  }

  /** Every first-seen name has its total in the dictionary. */
  lemma TallyCoversKeys(rows: seq<Record>, nameOf: Record -> string, amount: Record -> int)
    ensures forall k :: k in Distinct(MapSeq(rows, nameOf)) ==>
      k in Tally(rows, nameOf, amount) && Tally(rows, nameOf, amount)[k] == SumWhere(rows, nameOf, k, amount)
  {
    TallyMeaning(rows, nameOf, amount);
  }

  /** The dictionary holds exactly the names seen, each with the total of
      its rows. */
  lemma {:induction false} TallyMeaning(seen: seq<Record>, nameOf: Record -> string, amount: Record -> int)
    ensures forall k :: k in Tally(seen, nameOf, amount) <==> k in MapSeq(seen, nameOf)
    ensures forall k :: k in Tally(seen, nameOf, amount) ==>
      Tally(seen, nameOf, amount)[k] == SumWhere(seen, nameOf, k, amount)
    decreases |seen|
  {
    if seen != [] {
      var s, x := seen[..|seen| - 1], seen[|seen| - 1];
      TallyMeaning(s, nameOf, amount);
      assert seen == s + [x];
      MapSnoc(s, x, nameOf);
      forall k | k in Tally(seen, nameOf, amount)
        ensures Tally(seen, nameOf, amount)[k] == SumWhere(seen, nameOf, k, amount)
      {
        SumWhereSnoc(s, x, nameOf, k, amount);
        if k == nameOf(x) && k !in Tally(s, nameOf, amount) {
          UnseenLabelSumsToZero(s, nameOf, amount, k);
        }
      }
    }
  }

  lemma UnseenLabelSumsToZero(seen: seq<Record>, nameOf: Record -> string, amount: Record -> int, name: string)
    requires name !in MapSeq(seen, nameOf)
    ensures SumWhere(seen, nameOf, name, amount) == 0
  {
    forall x | x in seen
      ensures nameOf(x) != name
    {
      MapMembership(seen, nameOf, name);
    }
    SumWhereAbsent(seen, nameOf, name, amount);
  }

  /** The ten slice colours. */
  const Palette: seq<string> := ["#4BC0C0", "#36A2EB", "#FFCE56", "#FF6384", "#9966FF",
                                 "#FF9F40", "#00C49F", "#C71585", "#8B0000", "#2E8B57"]

  /** `[...].slice(0, values.length)` */
  function Colors(n: nat): (r: seq<string>)
    ensures |r| == if n < 10 then n else 10
    ensures forall j :: 0 <= j < |r| ==> r[j] == Palette[j]
  {
    if n < |Palette| then Palette[..n] else Palette
  }

  datatype Chart = Chart(labels: seq<string>, values: seq<int>, colors: seq<string>, total: int)

  /** The card: filter, aggregate, total and colours. Each activity name
      appears once, each slice is that name's total, and the slices add up
      to the chosen amount over every passing row. */
  method DonutChart(title: string, data: seq<Record>, filters: Record) returns (c: Chart)
    ensures NoDups(c.labels)
    ensures forall l :: l in c.labels <==>
      exists item :: item in data && Passes(filters, item) && LabelOf()(item) == l
    ensures |c.values| == |c.labels|
    ensures forall j :: 0 <= j < |c.labels| ==>
      c.values[j] == SumWhere(FilterRows(data, filters), LabelOf(), c.labels[j], Amount(AnggaranKey(title)))
    ensures c.total == Sum(c.values)
    ensures c.total == SumBy(FilterRows(data, filters), Amount(AnggaranKey(title)))
    ensures |c.colors| == if |c.labels| < 10 then |c.labels| else 10
  {
    var rows := FilterRows(data, filters);
    var key := AnggaranKey(title);
    var labels, values := Aggregate(rows, LabelOf(), Amount(key));
    forall l
      ensures l in MapSeq(rows, LabelOf()) <==> exists item :: item in rows && LabelOf()(item) == l
    {
      MapMembership(rows, LabelOf(), l);
    }
    forall item | item in rows
      ensures LabelOf()(item) in labels
    {
    }
    PartitionSum(rows, LabelOf(), labels, values, Amount(key));
    c := Chart(labels, values, Colors(|values|), Sum(values));
  }
}
