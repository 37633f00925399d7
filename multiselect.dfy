/** The selection logic of MultiSelectDropdown: option sections are cleaned
    and sorted, the search box narrows the visible options, and the
    "toggle one" and "toggle all" actions compute the next selection, which
    the component hands to its parent through `onChange`. */
module MultiSelect {
  import opened Js
  import opened Seqs
  import opened Sorting

  /** A section as the parent passes it; `options` may be missing. */
  datatype Section = Section(title: string, options: Option<seq<string>>)

  /** A cleaned section: options present, distinct, non-empty, sorted. */
  datatype Group = Group(title: string, options: seq<string>)

  /** The callback `Boolean` used by `filter(Boolean)` on strings. */
  function NonEmpty(): string -> bool
  {
    o => o != ""
  }

  /** The local `sort`: `[...new Set((arr || []).filter(Boolean))].sort(le)`. */
  function SortOptions(arr: Option<seq<string>>, le: (string, string) -> bool): (r: seq<string>)
    ensures NoDups(r)
    ensures TotalPreorder(le) ==> SortedBy(r, le)
    ensures forall o :: o in r <==> arr.Some? && o in arr.value && o != ""
  {
    var kept := FilterBy(if arr.Some? then arr.value else [], NonEmpty());
    SortDistinct(kept, le);
    SortBy(Distinct(kept), le)
  }

  /** A section with no non-empty option. */
  predicate Blank(s: Section)
  {
    s.options.None? || forall o :: o in s.options.value ==> o == ""
  }

  /** The callback `s => ({title: s.title, options: sort(s.options)})`. */
  function Clean(le: (string, string) -> bool): Section -> Group
  {
    (s: Section) => Group(s.title, SortOptions(s.options, le))
  }

  /** The callback `s => s.options.length`. */
  function HasOptions(): Group -> bool
  {
    (g: Group) => |g.options| > 0
  }

  /** `sections.map(s => ({title, options: sort(s.options)})).filter(s => s.options.length)` */
  function NormalizeAll(sections: seq<Section>, le: (string, string) -> bool): (r: seq<Group>)
    ensures |r| <= |sections|
  {
    FilterBy(MapSeq(sections, Clean(le)), HasOptions())
  }

  /** The kept groups are exactly the cleaned input sections that still
      have an option. */
  lemma NormalizedFrom(sections: seq<Section>, le: (string, string) -> bool)
    ensures forall g :: g in NormalizeAll(sections, le) <==>
      |g.options| > 0 && exists s :: s in sections && g == Group(s.title, SortOptions(s.options, le))
  {
    forall g {
      MapMembership(sections, Clean(le), g);
    }
  }

  /** A section keeps an option exactly when it is not blank. */
  lemma BlankIffEmpty(s: Section, le: (string, string) -> bool)
    ensures Blank(s) <==> |SortOptions(s.options, le)| == 0
  {
    HeadIn(SortOptions(s.options, le));
    if !Blank(s) {
      var o :| o in s.options.value && o != "";
      assert o in SortOptions(s.options, le);
    }
  }

  /** Nothing remains exactly when every section is blank. */
  lemma NormalizeAllEmpty(sections: seq<Section>, le: (string, string) -> bool)
    ensures |NormalizeAll(sections, le)| == 0 <==> forall s :: s in sections ==> Blank(s)
  {
    var m := MapSeq(sections, Clean(le));
    FilterEmpty(m, HasOptions());
    if forall s :: s in sections ==> Blank(s) {
      forall g | g in m
        ensures !HasOptions()(g)
      {
        var i :| 0 <= i < |m| && m[i] == g;
        assert sections[i] in sections;
        BlankIffEmpty(sections[i], le);
      }
    } else {
      var s :| s in sections && !Blank(s);
      var i :| 0 <= i < |sections| && sections[i] == s;
      BlankIffEmpty(s, le);
      assert m[i] in m;
    }
  }

  /** Every kept section is duplicate-free and, for a proper comparator,
      sorted. */
  lemma NormalizedGroups(sections: seq<Section>, le: (string, string) -> bool)
    ensures forall g :: g in NormalizeAll(sections, le) ==> NoDups(g.options)
    ensures TotalPreorder(le) ==> forall g :: g in NormalizeAll(sections, le) ==> SortedBy(g.options, le)
  {
    NormalizedFrom(sections, le);
  }

  /** `normSections`: `null` when `sections` is not an array or when no
      section keeps an option. */
  function NormSections(sections: Option<seq<Section>>, le: (string, string) -> bool): (r: Option<seq<Group>>)
    ensures r.None? <==> sections.None? || forall s :: s in sections.value ==> Blank(s)
    ensures r.Some? ==> |r.value| > 0 && forall g :: g in r.value ==> |g.options| > 0 && NoDups(g.options)
    ensures r.Some? && TotalPreorder(le) ==> forall g :: g in r.value ==> SortedBy(g.options, le)
  {
    if sections.None? then None
    else
      var s := NormalizeAll(sections.value, le);
      NormalizeAllEmpty(sections.value, le);
      NormalizedGroups(sections.value, le);
      if |s| > 0 then Some(s) else None
  }

  /** `groups.flatMap(s => s.options)` */
  function FlatOf(groups: seq<Group>): seq<string>
  {
    if |groups| == 0 then [] else FlatOf(groups[..|groups| - 1]) + groups[|groups| - 1].options
  }

  lemma {:induction false} FlatOfMembership(groups: seq<Group>, o: string)
    ensures o in FlatOf(groups) <==> exists g :: g in groups && o in g.options
  {
    if |groups| > 0 {
      var init := groups[..|groups| - 1];
      FlatOfMembership(init, o);
      assert groups == init + [groups[|groups| - 1]];
    }
  }

  /** `flatAll`: the options of every section in order, or without sections
      the cleaned and sorted `options`. */
  function FlatAll(norm: Option<seq<Group>>, options: Option<seq<string>>, le: (string, string) -> bool): (r: seq<string>)
    ensures norm.None? ==> NoDups(r) && forall o :: o in r <==> options.Some? && o in options.value && o != ""
    ensures norm.Some? ==> forall o :: o in r <==> exists g :: g in norm.value && o in g.options
  {
    if norm.Some? then
      assert forall o :: o in FlatOf(norm.value) <==> exists g :: g in norm.value && o in g.options by {
        forall o {
          FlatOfMembership(norm.value, o);
        }
      }
      FlatOf(norm.value)
    else SortOptions(options, le)
  }

  /** `query.trim().toLowerCase()` */
  function Query(query: string): string
  {
    Lower(Trim(query))
  }

  /** The callback `o => (o || "").toLowerCase().includes(q)`. */
  function MatchesQuery(q: string): string -> bool
  {
    o => Contains(Lower(o), q)
  }

  /** `!q ? options : options.filter(...)` */
  function KeepMatching(options: seq<string>, q: string): seq<string>
  {
    if q == "" then options else FilterBy(options, MatchesQuery(q))
  }

  /** The blank query skips the filter, which is the same as filtering with
      it, since every string contains the empty string. */
  lemma KeepMatchingIsFilter(options: seq<string>, q: string)
    ensures KeepMatching(options, q) == FilterBy(options, MatchesQuery(q))
  {
    if q == "" {
      forall o | o in options
        ensures MatchesQuery(q)(o)
      {
        EmptyContained(Lower(o));
      }
      FilterKeepsAll(options, MatchesQuery(q));
    }
  }

  /** Each section narrowed to its matching options, empty sections dropped. */
  function FilterGroups(groups: seq<Group>, q: string): seq<Group>
  {
    if |groups| == 0 then []
    else
      var g := groups[|groups| - 1];
      var kept := KeepMatching(g.options, q);
      FilterGroups(groups[..|groups| - 1], q) + (if |kept| > 0 then [Group(g.title, kept)] else [])
  }

  /** What the menu shows: the narrowed sections (or `null`) and their
      options in one list. */
  datatype View = View(sections: Option<seq<Group>>, flat: seq<string>)

  /** `visible` */
  function Visible(norm: Option<seq<Group>>, flatAll: seq<string>, query: string): View
  {
    var q := Query(query);
    if norm.None? then View(None, KeepMatching(flatAll, q))
    else
      var secs := FilterGroups(norm.value, q);
      View(Some(secs), FlatOf(secs))
  }

  /** Narrowing section by section and then flattening keeps, in order,
      exactly the options of the flat list that match. */
  lemma {:induction false} FlatOfFilterGroups(groups: seq<Group>, q: string)
    ensures FlatOf(FilterGroups(groups, q)) == FilterBy(FlatOf(groups), MatchesQuery(q))
  {
    if |groups| > 0 {
      var init := groups[..|groups| - 1];
      var g := groups[|groups| - 1];
      FlatOfFilterGroups(init, q);
      KeepMatchingIsFilter(g.options, q);
      FilterAppend(FlatOf(init), g.options, MatchesQuery(q));
      var kept := KeepMatching(g.options, q);
      if |kept| > 0 {
        FlatOfSnoc(FilterGroups(init, q), Group(g.title, kept));
      } else {
        AppendEmpty(FilterGroups(init, q));
      }
    }
  }

  lemma FlatOfSnoc(groups: seq<Group>, g: Group)
    ensures FlatOf(groups + [g]) == FlatOf(groups) + g.options
  {
    assert (groups + [g])[..|groups|] == groups;
  }

  /** The visible options are the options of `flatAll` whose lowercase form
      contains the trimmed, lowercased query, in `flatAll`'s order. */
  lemma VisibleFlat(norm: Option<seq<Group>>, options: Option<seq<string>>, le: (string, string) -> bool, query: string)
    ensures Visible(norm, FlatAll(norm, options, le), query).flat ==
      FilterBy(FlatAll(norm, options, le), MatchesQuery(Query(query)))
  {
    var q := Query(query);
    if norm.None? {
      KeepMatchingIsFilter(FlatAll(norm, options, le), q);
    } else {
      FlatOfFilterGroups(norm.value, q);
    }
  }

  /** A blank or whitespace-only query shows every option. */
  lemma BlankQueryShowsAll(norm: Option<seq<Group>>, options: Option<seq<string>>, le: (string, string) -> bool, query: string)
    requires Trim(query) == ""
    ensures Visible(norm, FlatAll(norm, options, le), query).flat == FlatAll(norm, options, le)
  {
    VisibleFlat(norm, options, le, query);
    var flat := FlatAll(norm, options, le);
    forall o | o in flat
      ensures MatchesQuery(Query(query))(o)
    {
      EmptyContained(Lower(o));
    }
    FilterKeepsAll(flat, MatchesQuery(Query(query)));
  }

  /** `allChecked`: something is visible and every visible option is selected. */
  predicate AllChecked(flat: seq<string>, selected: seq<string>)
  {
    |flat| > 0 && forall v :: v in flat ==> v in selected
  }

  /** `someChecked`: some visible option is selected, but not all. */
  predicate SomeChecked(flat: seq<string>, selected: seq<string>)
  {
    (exists v :: v in flat && v in selected) && !AllChecked(flat, selected)
  }

  /** The header checkbox is never both checked and indeterminate, and with
      nothing visible it is unchecked. */
  lemma CheckStatesExclusive(flat: seq<string>, selected: seq<string>)
    ensures !(AllChecked(flat, selected) && SomeChecked(flat, selected))
    ensures |flat| == 0 ==> !AllChecked(flat, selected) && !SomeChecked(flat, selected)
  {
  }

  /** What `toggleValue` does: the selection it emits and whether it closes
      the menu. */
  datatype Outcome = Outcome(emitted: seq<string>, close: bool)

  /** The callback `v => v !== val`. */
  function Other(val: string): string -> bool
  {
    v => v != val
  }

  /** `toggleValue(val)`: in single mode emit `[val]` and close; otherwise
      remove every occurrence of a selected value or append an absent one. */
  function ToggleValue(selected: seq<string>, val: string, allowMultiple: bool): (r: Outcome)
    ensures !allowMultiple ==> r.emitted == [val] && r.close
    ensures allowMultiple ==> !r.close
    ensures allowMultiple ==> (val in r.emitted <==> val !in selected)
    ensures allowMultiple ==> forall x :: x != val ==> (x in r.emitted <==> x in selected)
    ensures allowMultiple && val in selected ==> IsSubseq(r.emitted, selected)
    ensures allowMultiple && val in selected ==>
      forall x :: multiset(r.emitted)[x] == if x == val then 0 else multiset(selected)[x]
    ensures allowMultiple && val !in selected ==> r.emitted == selected + [val]
  {
    if !allowMultiple then Outcome([val], true)
    else if val in selected then
      FilterIsSubseq(selected, Other(val));
      FilterCount(selected, Other(val));
      Outcome(FilterBy(selected, Other(val)), false)
    else Outcome(selected + [val], false)
  }

  /** Toggling an absent value twice gives back the original selection. */
  lemma ToggleTwiceRestores(selected: seq<string>, val: string)
    requires val !in selected
    ensures ToggleValue(ToggleValue(selected, val, true).emitted, val, true).emitted == selected
  {
    FilterSnoc(selected, val, Other(val));
    FilterKeepsAll(selected, Other(val));
  }

  /** Toggling keeps a duplicate-free selection duplicate-free. */
  lemma ToggleValueNoDups(selected: seq<string>, val: string, allowMultiple: bool)
    requires NoDups(selected)
    ensures NoDups(ToggleValue(selected, val, allowMultiple).emitted)
  {
    if allowMultiple && val in selected {
      FilterNoDups(selected, Other(val));
    }
  }

  /** `toggleAll`: nothing when multiple choice is off; with every visible
      option selected, the selection without the visible options; otherwise
      a `Set` of the selection to which each visible option is added. */
  method ToggleAll(selected: seq<string>, flat: seq<string>, allowMultiple: bool)
    returns (emitted: Option<seq<string>>)
    ensures !allowMultiple ==> emitted.None?
    ensures allowMultiple && AllChecked(flat, selected) ==>
      emitted == Some(FilterBy(selected, NotIn(flat)))
    ensures allowMultiple && !AllChecked(flat, selected) ==>
      emitted == Some(Distinct(selected) + Distinct(FilterBy(flat, NotIn(selected))))
  {
    if !allowMultiple {
      return None;
    }
    if AllChecked(flat, selected) {
      return Some(FilterBy(selected, NotIn(flat)));
    }
    var u := Distinct(selected);
    var i := 0;
    assert selected + flat[..0] == selected;
    while i < |flat|
      invariant 0 <= i <= |flat|
      invariant u == Distinct(selected + flat[..i])
    {
      DistinctPrefixStep(selected, flat, i);
      if flat[i] !in u {
        u := u + [flat[i]];
      }
      i := i + 1;
    }
    assert flat[..i] == flat;
    DistinctAppend(selected, flat);
    return Some(u);
  }

  /** Adding the next visible option to the `Set` adds it at the end when
      it is new and changes nothing otherwise. */
  lemma DistinctPrefixStep(selected: seq<string>, flat: seq<string>, i: nat)
    requires i < |flat|
    ensures Distinct(selected + flat[..i + 1]) ==
      if flat[i] in Distinct(selected + flat[..i]) then Distinct(selected + flat[..i])
      else Distinct(selected + flat[..i]) + [flat[i]]
  {
    TakeSnoc(flat, i);
    ConcatAssoc(selected, flat[..i], [flat[i]]);
    DistinctSnoc(selected + flat[..i], flat[i]);
  }

  /** After "select all" every visible option is checked, and the new
      selection has no duplicates. */
  lemma SelectAllChecksAll(selected: seq<string>, flat: seq<string>)
    requires |flat| > 0
    ensures AllChecked(flat, Distinct(selected) + Distinct(FilterBy(flat, NotIn(selected))))
    ensures NoDups(Distinct(selected) + Distinct(FilterBy(flat, NotIn(selected))))
  {
    var a, b := Distinct(selected), Distinct(FilterBy(flat, NotIn(selected)));
    forall v | v in flat
      ensures v in a + b
    {
      if v !in selected {
        assert v in FilterBy(flat, NotIn(selected));
      }
    }
    NoDupsConcat(a, b);
  }

  /** "Select none" removes exactly the visible options and keeps the other
      selected values in order. */
  lemma DeselectAllRemovesVisible(selected: seq<string>, flat: seq<string>)
    ensures forall v :: v in FilterBy(selected, NotIn(flat)) <==> v in selected && v !in flat
    ensures IsSubseq(FilterBy(selected, NotIn(flat)), selected)
  {
    FilterIsSubseq(selected, NotIn(flat));
  }

  /** The callback `v => flatAll.includes(v)`. */
  function InList(xs: seq<string>): string -> bool
  {
    v => v in xs
  }

  /** `displayText`, over the selected values that are options. */
  function DisplayText(selected: seq<string>, flatAll: seq<string>, placeholder: string): (r: string)
    ensures |FilterBy(selected, InList(flatAll))| == 0 ==> r == placeholder
    ensures |FilterBy(selected, InList(flatAll))| == 1 ==>
      r in selected && r in flatAll && forall x :: x in selected && x in flatAll ==> x == r
    ensures 2 <= |FilterBy(selected, InList(flatAll))| == |flatAll| ==> r == "Semua"
    ensures 2 <= |FilterBy(selected, InList(flatAll))| != |flatAll| ==>
      r == IntToString(|FilterBy(selected, InList(flatAll))|) + " dipilih"
  {
    var eff := FilterBy(selected, InList(flatAll));
    if |eff| == 0 then placeholder
    else if |eff| == 1 then
      assert eff[0] in eff && eff == [eff[0]];
      assert forall x :: x in selected && x in flatAll ==> InList(flatAll)(x) && x in eff;
      eff[0]
    else if |eff| == |flatAll| then "Semua"
    else IntToString(|eff|) + " dipilih"
  }

  /** For duplicate-free selections and options (which the toggles above
      maintain), two or more effective choices read "Semua" exactly when
      every option is chosen. */
  lemma DisplaySemuaIffAllChosen(selected: seq<string>, flatAll: seq<string>, placeholder: string)
    requires NoDups(selected) && NoDups(flatAll)
    requires |FilterBy(selected, InList(flatAll))| >= 2
    ensures DisplayText(selected, flatAll, placeholder) == "Semua" <==> forall o :: o in flatAll ==> o in selected
  {
    var eff := FilterBy(selected, InList(flatAll));
    FilterNoDups(selected, InList(flatAll));
    NoDupsCard(eff);
    NoDupsCard(flatAll);
    var se, sf := set x | x in eff, set x | x in flatAll;
    if forall o :: o in flatAll ==> o in selected {
      assert se == sf;
    }
    if |eff| == |flatAll| {
      SubsetCard(se, sf);
      forall o | o in flatAll
        ensures o in selected
      {
        assert o in sf;
      }
    }
    var n := IntToString(|eff|);
    assert (n + " dipilih")[|n|..] == " dipilih";
    assert |eff| != |flatAll| ==> DisplayText(selected, flatAll, placeholder) == n + " dipilih";
  }

  /** Without repeated selections, the number shown before " dipilih" is
      the number of distinct options chosen. */
  lemma ChosenCount(selected: seq<string>, flatAll: seq<string>)
    requires NoDups(selected)
    ensures |FilterBy(selected, InList(flatAll))| == |set x | x in selected && x in flatAll|
  {
    var eff := FilterBy(selected, InList(flatAll));
    FilterNoDups(selected, InList(flatAll));
    NoDupsCard(eff);
    assert (set x | x in eff) == (set x | x in selected && x in flatAll);
  }
}
