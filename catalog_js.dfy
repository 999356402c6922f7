/** The catalogue page script (petshop/static/js/catalog.js): the filters
    recorded from the filter form, the search history kept in local storage,
    and the query parameters of the product request. */
module CatalogJs {
  import opened Wrappers
  import opened Text

  /** One `FormData` entry of the filter form. */
  datatype FormEntry = FormEntry(key: string, value: string)

  const CsrfField: string := "csrfmiddlewaretoken"
  const SearchField: string := "search_name"
  const SortParam: string := "sort"
  const HistoryLimit: nat := 10

  /** The entries `saveToSearchHistory` records: not the CSRF token, not the
      search box, and not an empty value. */
  predicate Recorded(e: FormEntry)
  {
    e.key != CsrfField && e.key != SearchField && e.value != ""
  }

  /** The entries `loadProducts` sends: not the CSRF token and not empty. */
  predicate Sent(e: FormEntry)
  {
    e.key != CsrfField && e.value != ""
  }

  // ---------------------------------------------------------------- selected filters

  /** One key of `selectedFilters` with its array of values. The object's key
      order is insertion order, which `JSON.stringify` keeps; so the filters
      are a list in that order. */
  datatype Filter = Filter(key: string, values: seq<string>)

  function Keys(filters: seq<Filter>): (ks: seq<string>)
    ensures |ks| == |filters|
    ensures forall i :: 0 <= i < |filters| ==> ks[i] == filters[i].key
  {
    if filters == [] then [] else [filters[0].key] + Keys(filters[1..])
  }

  predicate Distinct(ks: seq<string>)
  {
    forall i, j :: 0 <= i < j < |ks| ==> ks[i] != ks[j]
  }

  /** The values recorded under `key` ([] when it has none). */
  function Lookup(filters: seq<Filter>, key: string): seq<string>
  {
    if filters == [] then []
    else if filters[0].key == key then filters[0].values
    else Lookup(filters[1..], key)
  }

  /** Every key present has at least one value. */
  predicate NonEmptyValues(filters: seq<Filter>)
  {
    forall i :: 0 <= i < |filters| ==> filters[i].values != []
  }

  /** One step of the `forEach`: a new key gets `[value]` at the end, a known
      key gets the value pushed onto its array. */
  function AddEntry(filters: seq<Filter>, e: FormEntry): (r: seq<Filter>)
    ensures Keys(r) == Keys(filters) + (if e.key in Keys(filters) then [] else [e.key])
    ensures forall k :: Lookup(r, k) == if k == e.key then Lookup(filters, k) + [e.value] else Lookup(filters, k)
    ensures NonEmptyValues(filters) ==> NonEmptyValues(r)
  {
    if filters == [] then [Filter(e.key, [e.value])]
    else if filters[0].key == e.key then
      var r := [Filter(e.key, filters[0].values + [e.value])] + filters[1..];
      assert r[1..] == filters[1..];
      r
    else
      var rest := AddEntry(filters[1..], e);
      var r := [filters[0]] + rest;
      assert r[1..] == rest;
      assert Keys(filters) == [filters[0].key] + Keys(filters[1..]);
      r
  }

  /** The values the form holds for `key` among the recorded entries, in
      form order. */
  function RecordedValues(form: seq<FormEntry>, key: string): (vs: seq<string>)
  {
    if form == [] then []
    else
      var e := form[|form| - 1];
      RecordedValues(form[..|form| - 1], key) + (if Recorded(e) && e.key == key then [e.value] else [])
  }

  /** `selectedFilters` after the `forEach` over the form. */
  function SelectedFilters(form: seq<FormEntry>): seq<Filter>
  {
    if form == [] then []
    else
      var e := form[|form| - 1];
      var prev := SelectedFilters(form[..|form| - 1]);
      if Recorded(e) then AddEntry(prev, e) else prev
  }

  lemma DistinctAppend(ks: seq<string>, k: string)
    requires Distinct(ks)
    ensures Distinct(ks + (if k in ks then [] else [k]))
  {
  }

  /** Missing keys have no values. */
  lemma {:induction false} LookupMissing(filters: seq<Filter>, key: string)
    requires key !in Keys(filters)
    ensures Lookup(filters, key) == []
  {
    if filters != [] {
      assert Keys(filters) == [filters[0].key] + Keys(filters[1..]);
      LookupMissing(filters[1..], key);
    }
  }

  /** Present keys have their first entry's values. */
  lemma {:induction false} LookupPresent(filters: seq<Filter>, key: string)
    requires NonEmptyValues(filters)
    requires key in Keys(filters)
    ensures Lookup(filters, key) != []
  {
    assert Keys(filters) == [filters[0].key] + Keys(filters[1..]);
    if filters[0].key != key {
      LookupPresent(filters[1..], key);
    }
  }

  /** The recorded filters: each key once, in order of first appearance; each
      key holds exactly the recorded values of the form under it, in form
      order; and a key is present iff the form records a value under it. */
  lemma {:induction false} SelectedFiltersSpec(form: seq<FormEntry>)
    ensures var f := SelectedFilters(form);
            Distinct(Keys(f)) && NonEmptyValues(f)
            && (forall k :: Lookup(f, k) == RecordedValues(form, k))
  {
    if form != [] {
      SelectedFiltersSpec(form[..|form| - 1]);
      var prev := SelectedFilters(form[..|form| - 1]);
      var e := form[|form| - 1];
      if Recorded(e) {
        DistinctAppend(Keys(prev), e.key);
      }
    }
  }

  lemma SelectedKeysIff(form: seq<FormEntry>, key: string)
    ensures key in Keys(SelectedFilters(form)) <==> RecordedValues(form, key) != []
  {
    SelectedFiltersSpec(form);
    var f := SelectedFilters(form);
    if key in Keys(f) {
      LookupPresent(f, key);
    } else {
      LookupMissing(f, key);
    }
  }

  /** The values recorded under the CSRF token or the search box are none,
      and an empty value is never recorded. */
  lemma {:induction false} RecordedValuesExclude(form: seq<FormEntry>, key: string)
    ensures key == CsrfField || key == SearchField ==> RecordedValues(form, key) == []
    ensures forall i :: 0 <= i < |RecordedValues(form, key)| ==> RecordedValues(form, key)[i] != ""
  {
    if form != [] {
      RecordedValuesExclude(form[..|form| - 1], key);
    }
  }

  /** The `forEach` of `saveToSearchHistory` that builds `selectedFilters`. */
  method CollectFilters(form: seq<FormEntry>) returns (filters: seq<Filter>)
    ensures filters == SelectedFilters(form)
  {
    filters := [];
    var i := 0;
    while i < |form|
      invariant 0 <= i <= |form|
      invariant filters == SelectedFilters(form[..i])
    {
      assert form[..i + 1][..i] == form[..i];
      if Recorded(form[i]) {
        filters := AddEntry(filters, form[i]);
      }
      i := i + 1;
    }
    assert form[..|form|] == form;
  }

  // ---------------------------------------------------------------- search history

  /** A history entry. The labels shown for it are left out; they take no
      part in the comparison of entries. */
  datatype HistoryItem = HistoryItem(query: string, filters: seq<Filter>, sort: string, timestamp: string)

  /** The comparison of `saveToSearchHistory`: the same query, the same
      filters (as JSON text, so in the same key order) and the same sort. */
  predicate SameSearch(a: HistoryItem, b: HistoryItem)
  {
    a.query == b.query && a.filters == b.filters && a.sort == b.sort
  }

  /** The `filter` step: the entries that are not the same search. */
  function WithoutSame(history: seq<HistoryItem>, item: HistoryItem): (r: seq<HistoryItem>)
    ensures |r| <= |history|
    ensures forall i :: 0 <= i < |r| ==> !SameSearch(r[i], item)
    ensures forall x :: x in r <==> x in history && !SameSearch(x, item)
  {
    if history == [] then []
    else
      var rest := WithoutSame(history[1..], item);
      assert history == [history[0]] + history[1..];
      if SameSearch(history[0], item) then rest else [history[0]] + rest
  }

  /** Removing entries that the list no longer holds leaves it as it is. */
  lemma {:induction false} WithoutSameKeeps(history: seq<HistoryItem>, item: HistoryItem)
    requires forall i :: 0 <= i < |history| ==> !SameSearch(history[i], item)
    ensures WithoutSame(history, item) == history
  {
    if history != [] {
      WithoutSameKeeps(history[1..], item);
    }
  }

  function Take<T>(s: seq<T>, n: nat): (r: seq<T>)
    ensures |r| == (if |s| <= n then |s| else n)
    ensures r == s[..|r|]
  {
    if |s| <= n then s else s[..n]
  }

  /** The history after a search is saved: the new entry first, the same
      search removed, and at most `HistoryLimit` entries. */
  function SavedHistory(history: seq<HistoryItem>, item: HistoryItem): seq<HistoryItem>
  {
    Take([item] + WithoutSame(history, item), HistoryLimit)
  }

  /** The new entry is first and nowhere else; the rest are the older entries
      with the same search removed, most recent first, cut so that the oldest
      go; at most 10 remain. */
  lemma SavedHistorySpec(history: seq<HistoryItem>, item: HistoryItem)
    ensures var r := SavedHistory(history, item);
            var kept := WithoutSame(history, item);
            1 <= |r| <= HistoryLimit && r[0] == item
            && (forall i :: 1 <= i < |r| ==> !SameSearch(r[i], item))
            && r[1..] == kept[..|r| - 1]
            && |r| == (if |kept| + 1 <= HistoryLimit then |kept| + 1 else HistoryLimit)
  {
    var r := SavedHistory(history, item);
    var kept := WithoutSame(history, item);
    assert r == ([item] + kept)[..|r|];
    assert r[1..] == kept[..|r| - 1];
  }

  /** Saving the same search again only refreshes its entry: the history is
      what saving it once on the old history gives. */
  lemma SaveSameSearchAgain(history: seq<HistoryItem>, item: HistoryItem, again: HistoryItem)
    requires SameSearch(item, again)
    ensures SavedHistory(SavedHistory(history, item), again) == SavedHistory(history, again)
  {
    var kept := WithoutSame(history, item);
    var once := SavedHistory(history, item);
    SavedHistorySpec(history, item);
    var m := |once| - 1;
    assert once[1..] == kept[..m];
    assert forall i :: 1 <= i < |once| ==> !SameSearch(once[i], again);
    WithoutSameHead(once, again);
    WithoutSameRespects(history, item, again);
    TakeAfterCut(again, kept, m);
  }

  /** Cutting the tail to one entry less than the limit before putting an
      entry in front takes the same prefix as cutting after. */
  lemma TakeAfterCut<T>(x: T, s: seq<T>, m: nat)
    requires m == if |s| + 1 <= HistoryLimit then |s| else HistoryLimit - 1
    ensures Take([x] + s[..m], HistoryLimit) == Take([x] + s, HistoryLimit)
  {
    if |s| + 1 <= HistoryLimit {
      assert s[..m] == s;
    } else {
      assert [x] + s[..m] == ([x] + s)[..HistoryLimit];
    }
  }

  /** Searches that compare alike are removed alike. */
  lemma {:induction false} WithoutSameRespects(history: seq<HistoryItem>, a: HistoryItem, b: HistoryItem)
    requires SameSearch(a, b)
    ensures WithoutSame(history, a) == WithoutSame(history, b)
  {
    if history != [] {
      WithoutSameRespects(history[1..], a, b);
    }
  }

  /** Removing from a list whose head is the same search drops that head. */
  lemma WithoutSameHead(s: seq<HistoryItem>, item: HistoryItem)
    requires s != [] && SameSearch(s[0], item)
    requires forall i :: 1 <= i < |s| ==> !SameSearch(s[i], item)
    ensures WithoutSame(s, item) == s[1..]
  {
    WithoutSameKeeps(s[1..], item);
  }

  /** The history of the page: the list in memory and what local storage
      holds under `search_history` (`None` when nothing is stored). Parsing
      and writing the JSON text is left out: the stored list is the list. */
  class SearchHistory {
    var items: seq<HistoryItem>
    var stored: Option<seq<HistoryItem>>

    constructor (storage: Option<seq<HistoryItem>>)
      ensures items == [] && stored == storage
    {
      items := [];
      stored := storage;
    }

    /** `loadSearchHistory`: the stored list, if any, replaces the list. */
    method Load()
      modifies this
      ensures items == (if stored.Some? then stored.value else old(items))
      ensures stored == old(stored)
    {
      if stored.Some? {
        items := stored.value;
      }
    }

    /** `saveToSearchHistory`. A blank query changes nothing; otherwise the
        entry of the trimmed query, the recorded filters, the sort and the
        time is saved, and the list is stored. */
    method Save(rawQuery: string, form: seq<FormEntry>, sort: string, now: string)
      modifies this
      ensures Strip(rawQuery) == "" ==> items == old(items) && stored == old(stored)
      ensures Strip(rawQuery) != "" ==>
                items == SavedHistory(old(items), HistoryItem(Strip(rawQuery), SelectedFilters(form), sort, now))
                && stored == Some(items)
      ensures |items| <= HistoryLimit || items == old(items)
    {
      var query := Strip(rawQuery);
      if query == "" {
        return;
      }
      var filters := CollectFilters(form);
      var item := HistoryItem(query, filters, sort, now);
      SavedHistorySpec(items, item);
      items := SavedHistory(items, item);
      stored := Some(items);
    }
  }

  // ---------------------------------------------------------------- request parameters

  /** The form entries `loadProducts` copies into its parameters. */
  function SentEntries(form: seq<FormEntry>): (r: seq<FormEntry>)
    ensures forall i :: 0 <= i < |r| ==> Sent(r[i])
    ensures forall e :: e in r <==> e in form && Sent(e)
  {
    if form == [] then []
    else
      var last := form[|form| - 1];
      assert form == form[..|form| - 1] + [last];
      SentEntries(form[..|form| - 1]) + (if Sent(last) then [last] else [])
  }

  /** The query parameters of `loadProducts`: the sent form entries in form
      order, then `sort` when a sort is selected. */
  method BuildParams(form: seq<FormEntry>, sort: string) returns (params: seq<FormEntry>)
    ensures params == SentEntries(form) + (if sort != "" then [FormEntry(SortParam, sort)] else [])
    ensures forall i :: 0 <= i < |params| ==> params[i].key != CsrfField && params[i].value != ""
    ensures sort == "" ==> forall e :: e in params ==> e in form
  {
    params := [];
    var i := 0;
    while i < |form|
      invariant 0 <= i <= |form|
      invariant params == SentEntries(form[..i])
    {
      assert form[..i + 1][..i] == form[..i];
      var e := form[i];
      if e.key != CsrfField && e.value != "" {
        params := params + [e];
      }
      i := i + 1;
    }
    assert form[..|form|] == form;
    if sort != "" {
      params := params + [FormEntry(SortParam, sort)];
    }
  }
}
