/** The query-parameter cleaning done before the data request: entries whose
    value is `undefined` or the empty string are dropped. */
module Api {
  import opened Js
  import opened Seqs

  /** The callback `([_, v]) => v !== undefined && v !== ''`. */
  function Kept(): ((string, Value)) -> bool
  {
    (e: (string, Value)) => e.1 != Undefined && e.1 != Str("")
  }

  /** `Object.fromEntries(Object.entries(filters).filter(...))` */
  function CleanFilters(filters: Record): (r: Record)
    ensures forall e {:trigger e in r} :: e in r <==> e in filters && e.1 != Undefined && e.1 != Str("")
    ensures IsSubseq(r, filters)
  {
    FilterIsSubseq(filters, Kept());
    FilterBy(filters, Kept())
  }

  /** Cleaning twice is cleaning once. */
  lemma CleanIdempotent(filters: Record)
    ensures CleanFilters(CleanFilters(filters)) == CleanFilters(filters)
  {
    FilterIdempotent(filters, Kept());
  }

  /** Reading a key absent from an object gives `undefined`. */
  lemma {:induction false} GetAbsent(r: Record, key: string)
    requires forall i :: 0 <= i < |r| ==> r[i].0 != key
    ensures Get(r, key) == Undefined
  {
    if |r| > 0 {
      GetAbsent(r[1..], key);
    }
  }

  /** Cleaning an object decides its first entry, then cleans the rest. */
  lemma CleanCons(e: (string, Value), rest: Record)
    ensures CleanFilters([e] + rest) == (if Kept()(e) then [e] else []) + CleanFilters(rest)
  {
    FilterAppend([e], rest, Kept());
    FilterSnoc([], e, Kept());
    assert [] + [e] == [e];
  }

  /** With unique keys, the first entry's key does not occur again. */
  lemma FirstKeyUnique(filters: Record)
    requires |filters| > 0 && NoDups(Keys(filters))
    ensures NoDups(Keys(filters[1..]))
    ensures forall i :: 0 <= i < |filters[1..]| ==> filters[1..][i].0 != filters[0].0
  {
    forall i | 0 <= i < |filters[1..]|
      ensures filters[1..][i].0 != filters[0].0
    {
      assert Keys(filters)[0] != Keys(filters)[i + 1];
    }
  }

  /** Seen through property lookup, cleaning turns '' into `undefined` and
      leaves every other value, `null`, 0 and 'Semua' included, as it was.
      An object never holds one key twice. */
  lemma {:induction false} CleanedLookup(filters: Record, key: string)
    requires NoDups(Keys(filters))
    ensures Get(CleanFilters(filters), key) == if Get(filters, key) == Str("") then Undefined else Get(filters, key)
  {
    if |filters| > 0 {
      if filters[0].0 == key {
        CleanedLookupFirst(filters, key);
      } else {
        FirstKeyUnique(filters);
        CleanedLookup(filters[1..], key);
        CleanedLookupSkip(filters, key);
      }
    }
  }

  /** The looked-up key is the first one: its entry decides the result. */
  lemma CleanedLookupFirst(filters: Record, key: string)
    requires |filters| > 0 && filters[0].0 == key && NoDups(Keys(filters))
    ensures Get(CleanFilters(filters), key) == if Get(filters, key) == Str("") then Undefined else Get(filters, key)
  {
    var e, rest := filters[0], filters[1..];
    assert filters == [e] + rest;
    CleanCons(e, rest);
    FirstKeyUnique(filters);
    var cleanedRest := CleanFilters(rest);
    forall i | 0 <= i < |cleanedRest|
      ensures cleanedRest[i].0 != key
    {
      assert cleanedRest[i] in cleanedRest;
      var j :| 0 <= j < |rest| && rest[j] == cleanedRest[i];
    }
    GetAbsent(cleanedRest, key);
    if Kept()(e) {
      assert CleanFilters(filters)[0] == e;
    } else {
      assert CleanFilters(filters) == cleanedRest;
    }
  }

  /** The first key is another one: lookup skips it before and after. */
  lemma CleanedLookupSkip(filters: Record, key: string)
    requires |filters| > 0 && filters[0].0 != key
    ensures Get(filters, key) == Get(filters[1..], key)
    ensures Get(CleanFilters(filters), key) == Get(CleanFilters(filters[1..]), key)
  {
    var e, rest := filters[0], filters[1..];
    assert filters == [e] + rest;
    CleanCons(e, rest);
    if Kept()(e) {
      assert CleanFilters(filters)[1..] == CleanFilters(rest);
    } else {
      assert CleanFilters(filters) == CleanFilters(rest);
    }
  }
}
