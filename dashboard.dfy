/** The CAP/CIP dashboard page: six selection slots (two years and the
    region hierarchy wilayah → kecamatan → kelurahan → RW), the change
    handlers that reset every level below the one changed, the choice of the
    chart's grouping level, and the dependent option lists of the three lower
    dropdowns. */
module Dashboard {
  import opened Js
  import opened Seqs
  import opened Sorting

  /** The "everything" sentinel the slots start with. */
  const Semua: string := "Semua"

  datatype Slot = TahunCap | TahunCip | Wilayah | Kecamatan | Kelurahan | Rw

  /** The six slot values at one moment. */
  datatype Selection = Selection(tahunCap: string, tahunCip: string, wilayah: string,
                                 kecamatan: string, kelurahan: string, rw: string)

  function At(sel: Selection, slot: Slot): string
  {
    match slot
    case TahunCap => sel.tahunCap
    case TahunCip => sel.tahunCip
    case Wilayah => sel.wilayah
    case Kecamatan => sel.kecamatan
    case Kelurahan => sel.kelurahan
    case Rw => sel.rw
  }

  /** Depth in the region hierarchy; the year slots stand outside it. */
  function Level(slot: Slot): int
  {
    match slot
    case TahunCap => -1
    case TahunCip => -1
    case Wilayah => 0
    case Kecamatan => 1
    case Kelurahan => 2
    case Rw => 3
  }

  /** `inner` lies strictly below `outer` in the region hierarchy. */
  predicate Below(outer: Slot, inner: Slot)
  {
    0 <= Level(outer) < Level(inner)
  }

  /** The state after mounting: every slot holds 'Semua'. */
  function Initial(): (r: Selection)
    ensures forall slot :: At(r, slot) == Semua
  {
    Selection(Semua, Semua, Semua, Semua, Semua, Semua)
  }

  /** What one change handler does: the chosen slot takes the new value,
      every level below it returns to 'Semua', and nothing else moves. */
  function Change(sel: Selection, slot: Slot, v: string): (r: Selection)
    ensures At(r, slot) == v
    ensures forall s :: s != slot ==> At(r, s) == if Below(slot, s) then Semua else At(sel, s)
  {
    match slot
    case TahunCap => sel.(tahunCap := v)
    case TahunCip => sel.(tahunCip := v)
    case Wilayah => sel.(wilayah := v, kecamatan := Semua, kelurahan := Semua, rw := Semua)
    case Kecamatan => sel.(kecamatan := v, kelurahan := Semua, rw := Semua)
    case Kelurahan => sel.(kelurahan := v, rw := Semua)
    case Rw => sel.(rw := v)
  }

  /** The component's six `useState` slots and their handlers. */
  class FilterState {
    var tahunCap: string
    var tahunCip: string
    var wilayah: string
    var kecamatan: string
    var kelurahan: string
    var rw: string

    function Snapshot(): Selection
      reads this
    {
      Selection(tahunCap, tahunCip, wilayah, kecamatan, kelurahan, rw)
    }

    constructor ()
      ensures Snapshot() == Initial()
    {
      tahunCap := Semua;
      tahunCip := Semua;
      wilayah := Semua;
      kecamatan := Semua;
      kelurahan := Semua;
      rw := Semua;
    }

    method OnChangeTahunCap(v: string)
      modifies this
      ensures Snapshot() == Change(old(Snapshot()), TahunCap, v)
    {
      tahunCap := v;
    }

    method OnChangeTahunCip(v: string)
      modifies this
      ensures Snapshot() == Change(old(Snapshot()), TahunCip, v)
    {
      tahunCip := v;
    }

    method OnChangeWilayah(v: string)
      modifies this
      ensures Snapshot() == Change(old(Snapshot()), Wilayah, v)
    {
      wilayah := v;
      kecamatan := Semua;
      kelurahan := Semua;
      rw := Semua;
    }

    method OnChangeKecamatan(v: string)
      modifies this
      ensures Snapshot() == Change(old(Snapshot()), Kecamatan, v)
    {
      kecamatan := v;
      kelurahan := Semua;
      rw := Semua;
    }

    method OnChangeKelurahan(v: string)
      modifies this
      ensures Snapshot() == Change(old(Snapshot()), Kelurahan, v)
    {
      kelurahan := v;
      rw := Semua;
    }

    method OnChangeRw(v: string)
      modifies this
      ensures Snapshot() == Change(old(Snapshot()), Rw, v)
    {
      rw := v;
    }

    method OnReset()
      modifies this
      ensures Snapshot() == Initial()
    {
      tahunCap := Semua;
      tahunCip := Semua;
      wilayah := Semua;
      kecamatan := Semua;
      kelurahan := Semua;
      rw := Semua;
    }
  }

  /** `getLevelXAxis`: the level the bar chart groups by. Only the literal
      'Semua' counts as "not selected". */
  function LevelXAxis(sel: Selection): (r: string)
    ensures r == "wilayah" || r == "kecamatan" || r == "kelurahan" || r == "rw"
    ensures r == "rw" ==> sel.kelurahan != Semua
    ensures r == "wilayah" ==> sel.kelurahan == Semua
  {
    if sel.wilayah != Semua && sel.kecamatan == Semua then "kecamatan"
    else if sel.kecamatan != Semua && sel.kelurahan == Semua then "kelurahan"
    else if sel.kelurahan != Semua then "rw"
    else "wilayah"
  }

  /** The RW and year slots never influence the grouping level. */
  lemma AxisIgnoresRwAndYears(a: Selection, b: Selection)
    requires a.wilayah == b.wilayah && a.kecamatan == b.kecamatan && a.kelurahan == b.kelurahan
    ensures LevelXAxis(a) == LevelXAxis(b)
  {
  }

  /** Choosing a wilayah groups by kecamatan; choosing a kecamatan groups by
      kelurahan; choosing a kelurahan under a chosen kecamatan (or with no
      wilayah) groups by RW; choosing an RW or a year keeps the level. */
  lemma AxisAfterChange(sel: Selection, slot: Slot, v: string)
    requires v != Semua
    ensures slot == Wilayah ==> LevelXAxis(Change(sel, slot, v)) == "kecamatan"
    ensures slot == Kecamatan ==> LevelXAxis(Change(sel, slot, v)) == "kelurahan"
    ensures slot == Kelurahan && (sel.kecamatan != Semua || sel.wilayah == Semua) ==>
      LevelXAxis(Change(sel, slot, v)) == "rw"
    ensures Level(slot) != 0 && Level(slot) != 1 && Level(slot) != 2 ==>
      LevelXAxis(Change(sel, slot, v)) == LevelXAxis(sel)
  {
    var r := Change(sel, slot, v);
    assert At(r, Wilayah) == r.wilayah && At(r, Kecamatan) == r.kecamatan && At(r, Kelurahan) == r.kelurahan;
    assert At(sel, Wilayah) == sel.wilayah && At(sel, Kecamatan) == sel.kecamatan;
    assert At(sel, Kelurahan) == sel.kelurahan;
  }

  /** The empty string, which the "Pilih ..." entries send, counts as a
      selection for the grouping level. */
  lemma EmptyCountsAsSelected(sel: Selection)
    requires sel.wilayah == "" && sel.kecamatan == Semua
    ensures LevelXAxis(sel) == "kecamatan"
  {
  }

  // Dependent option lists

  /** `!selected || d[key] === selected`: the option filter treats only the
      empty string as unrestricted. `semuaMeansAll` switches on the reading
      in which 'Semua' is unrestricted too. */
  predicate Matches(selected: string, row: Record, key: string, semuaMeansAll: bool)
  {
    selected == "" || (semuaMeansAll && selected == Semua) || Get(row, key) == Str(selected)
  }

  /** The rows feeding the option list `depth` levels below wilayah: they
      match every ancestor selection. */
  function AncestorsMatch(sel: Selection, depth: nat, semuaMeansAll: bool): Record -> bool
  {
    d => (depth >= 1 ==> Matches(sel.wilayah, d, "wilayah", semuaMeansAll)) &&
         (depth >= 2 ==> Matches(sel.kecamatan, d, "kecamatan", semuaMeansAll)) &&
         (depth >= 3 ==> Matches(sel.kelurahan, d, "kelurahan", semuaMeansAll))
  }

  /** `.map(d => d[key]).filter((v, i, arr) => arr.indexOf(v) === i).sort()` */
  function OptionList(rows: seq<Record>, key: string): (r: seq<Value>)
    ensures NoDups(r) && SortedBy(r, DefaultLe)
    ensures forall v :: v in r <==> (exists d :: d in rows && Get(d, key) == v)
  {
    var vals := MapSeq(rows, FieldOf(key));
    DefaultSortDistinct(vals);
    forall v
      ensures v in vals <==> exists d :: d in rows && Get(d, key) == v
    {
      MapMembership(rows, FieldOf(key), v);
    }
    SortBy(Distinct(vals), DefaultLe)
  }

  datatype Options = Options(kecamatan: seq<Value>, kelurahan: seq<Value>, rw: seq<Value>)

  function RowsOf(data: Option<seq<Record>>): seq<Record>
  {
    if data.Some? then data.value else []
  }

  function OptionsWith(data: Option<seq<Record>>, sel: Selection, semuaMeansAll: bool): Options
  {
    var rows := RowsOf(data);
    Options(OptionList(FilterBy(rows, AncestorsMatch(sel, 1, semuaMeansAll)), "kecamatan"),
            OptionList(FilterBy(rows, AncestorsMatch(sel, 2, semuaMeansAll)), "kelurahan"),
            OptionList(FilterBy(rows, AncestorsMatch(sel, 3, semuaMeansAll)), "rw"))
  }

  /** `getFilteredOptions` as written: each list is duplicate-free, sorted,
      and holds exactly the field values of the rows (of `data || []`) that
      match every ancestor selection, where only '' is unrestricted. */
  function FilteredOptions(data: Option<seq<Record>>, sel: Selection): (r: Options)
    ensures NoDups(r.kecamatan) && SortedBy(r.kecamatan, DefaultLe)
    ensures NoDups(r.kelurahan) && SortedBy(r.kelurahan, DefaultLe)
    ensures NoDups(r.rw) && SortedBy(r.rw, DefaultLe)
    ensures forall v :: v in r.kecamatan <==>
      (exists d :: d in RowsOf(data) &&
         (sel.wilayah == "" || Get(d, "wilayah") == Str(sel.wilayah)) &&
         Get(d, "kecamatan") == v)
    ensures forall v :: v in r.kelurahan <==>
      (exists d :: d in RowsOf(data) &&
         (sel.wilayah == "" || Get(d, "wilayah") == Str(sel.wilayah)) &&
         (sel.kecamatan == "" || Get(d, "kecamatan") == Str(sel.kecamatan)) &&
         Get(d, "kelurahan") == v)
    ensures forall v :: v in r.rw <==>
      (exists d :: d in RowsOf(data) &&
         (sel.wilayah == "" || Get(d, "wilayah") == Str(sel.wilayah)) &&
         (sel.kecamatan == "" || Get(d, "kecamatan") == Str(sel.kecamatan)) &&
         (sel.kelurahan == "" || Get(d, "kelurahan") == Str(sel.kelurahan)) &&
         Get(d, "rw") == v)
  {
    KecamatanOptions(data, sel);
    KelurahanOptions(data, sel);
    RwOptions(data, sel);
    OptionsWith(data, sel, false)
  }

  lemma KecamatanOptions(data: Option<seq<Record>>, sel: Selection)
    ensures forall v :: v in OptionsWith(data, sel, false).kecamatan <==>
      (exists d :: d in RowsOf(data) &&
         (sel.wilayah == "" || Get(d, "wilayah") == Str(sel.wilayah)) &&
         Get(d, "kecamatan") == v)
  {
    var p := AncestorsMatch(sel, 1, false);
    forall d
      ensures p(d) <==> sel.wilayah == "" || Get(d, "wilayah") == Str(sel.wilayah)
    {
    }
    assert OptionsWith(data, sel, false).kecamatan == OptionList(FilterBy(RowsOf(data), p), "kecamatan");
    OptionListOfMatching(RowsOf(data), p, "kecamatan");
  }

  lemma KelurahanOptions(data: Option<seq<Record>>, sel: Selection)
    ensures forall v :: v in OptionsWith(data, sel, false).kelurahan <==>
      (exists d :: d in RowsOf(data) &&
         (sel.wilayah == "" || Get(d, "wilayah") == Str(sel.wilayah)) &&
         (sel.kecamatan == "" || Get(d, "kecamatan") == Str(sel.kecamatan)) &&
         Get(d, "kelurahan") == v)
  {
    var p := AncestorsMatch(sel, 2, false);
    forall d
      ensures p(d) <==> (sel.wilayah == "" || Get(d, "wilayah") == Str(sel.wilayah)) &&
                        (sel.kecamatan == "" || Get(d, "kecamatan") == Str(sel.kecamatan))
    {
    }
    assert OptionsWith(data, sel, false).kelurahan == OptionList(FilterBy(RowsOf(data), p), "kelurahan");
    OptionListOfMatching(RowsOf(data), p, "kelurahan");
  }

  lemma RwOptions(data: Option<seq<Record>>, sel: Selection)
    ensures forall v :: v in OptionsWith(data, sel, false).rw <==>
      (exists d :: d in RowsOf(data) &&
         (sel.wilayah == "" || Get(d, "wilayah") == Str(sel.wilayah)) &&
         (sel.kecamatan == "" || Get(d, "kecamatan") == Str(sel.kecamatan)) &&
         (sel.kelurahan == "" || Get(d, "kelurahan") == Str(sel.kelurahan)) &&
         Get(d, "rw") == v)
  {
    var p := AncestorsMatch(sel, 3, false);
    forall d
      ensures p(d) <==> (sel.wilayah == "" || Get(d, "wilayah") == Str(sel.wilayah)) &&
                        (sel.kecamatan == "" || Get(d, "kecamatan") == Str(sel.kecamatan)) &&
                        (sel.kelurahan == "" || Get(d, "kelurahan") == Str(sel.kelurahan))
    {
    }
    assert OptionsWith(data, sel, false).rw == OptionList(FilterBy(RowsOf(data), p), "rw");
    OptionListOfMatching(RowsOf(data), p, "rw");
  }

  /** The options drawn from the rows satisfying `p`. */
  lemma OptionListOfMatching(rows: seq<Record>, p: Record -> bool, key: string)
    ensures forall v :: v in OptionList(FilterBy(rows, p), key) <==>
      (exists d :: d in rows && p(d) && Get(d, key) == v)
  {
    forall v
      ensures v in OptionList(FilterBy(rows, p), key) <==> (exists d :: d in rows && p(d) && Get(d, key) == v)
    {
      if exists d :: d in rows && p(d) && Get(d, key) == v {
        var d :| d in rows && p(d) && Get(d, key) == v;
        assert d in FilterBy(rows, p);
      }
    }
  }

  /** The rows behind the RW list are among those behind the kelurahan list,
      which are among those behind the kecamatan list. */
  lemma NestedOptionRows(rows: seq<Record>, sel: Selection, semuaMeansAll: bool)
    ensures IsSubseq(FilterBy(rows, AncestorsMatch(sel, 3, semuaMeansAll)),
                     FilterBy(rows, AncestorsMatch(sel, 2, semuaMeansAll)))
    ensures IsSubseq(FilterBy(rows, AncestorsMatch(sel, 2, semuaMeansAll)),
                     FilterBy(rows, AncestorsMatch(sel, 1, semuaMeansAll)))
  {
    FilterMonotone(rows, AncestorsMatch(sel, 3, semuaMeansAll), AncestorsMatch(sel, 2, semuaMeansAll));
    FilterMonotone(rows, AncestorsMatch(sel, 2, semuaMeansAll), AncestorsMatch(sel, 1, semuaMeansAll));
  }

  /** In the initial state the kecamatan list only offers kecamatan of rows
      whose wilayah is literally named 'Semua'. */
  lemma InitialOptionsNeedSemuaRows(data: seq<Record>)
    ensures forall v :: v in FilteredOptions(Some(data), Initial()).kecamatan ==>
      (exists d :: d in data && Get(d, "wilayah") == Str(Semua) && Get(d, "kecamatan") == v)
  {
  }

  /** A concrete row: wilayah Pusat, kecamatan Gambir. */
  function GambirRow(): Record
  {
    [("wilayah", Str("Pusat")), ("kecamatan", Str("Gambir")), ("kelurahan", Str("Kelurahan A")), ("rw", Str("01"))]
  }

  /** As written, the freshly mounted dashboard offers no kecamatan at all
      for data whose rows name real regions. */
  lemma InitialKecamatanListEmpty()
    ensures FilteredOptions(Some([GambirRow()]), Initial()).kecamatan == []
  {
  }

  /** The option lists with 'Semua' read as "unrestricted", like ''. */
  function CorrectedOptions(data: Option<seq<Record>>, sel: Selection): (r: Options)
    ensures NoDups(r.kecamatan) && SortedBy(r.kecamatan, DefaultLe)
    ensures NoDups(r.kelurahan) && SortedBy(r.kelurahan, DefaultLe)
    ensures NoDups(r.rw) && SortedBy(r.rw, DefaultLe)
  {
    OptionsWith(data, sel, true)
  }

  /** With the correction, the initial state (and the state after reset)
      offers every kecamatan, kelurahan and RW that occurs in the data. */
  lemma CorrectedInitialOffersAll(data: seq<Record>)
    ensures forall v :: v in CorrectedOptions(Some(data), Initial()).kecamatan <==>
      (exists d :: d in data && Get(d, "kecamatan") == v)
    ensures forall v :: v in CorrectedOptions(Some(data), Initial()).kelurahan <==>
      (exists d :: d in data && Get(d, "kelurahan") == v)
    ensures forall v :: v in CorrectedOptions(Some(data), Initial()).rw <==>
      (exists d :: d in data && Get(d, "rw") == v)
  {
    FilterKeepsAll(data, AncestorsMatch(Initial(), 1, true));
    FilterKeepsAll(data, AncestorsMatch(Initial(), 2, true));
    FilterKeepsAll(data, AncestorsMatch(Initial(), 3, true));
  }

  /** `sortAsc`: `[...arr].sort(localeCompare)` returns a sorted permutation
      of a copy, whatever total order the collation is. */
  function SortAsc(arr: seq<string>, le: (string, string) -> bool): (r: seq<string>)
    requires TotalPreorder(le)
    ensures multiset(r) == multiset(arr) && SortedBy(r, le)
  {
    SortBy(arr, le)
  }
}
