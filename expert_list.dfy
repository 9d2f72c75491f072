/** `ExpertListPage`'s filters and their round trip through the URL's search parameters, and
    `LandingPage`'s search box and list truncations. A search-parameter list is the sequence of
    `(key, value)` pairs a `URLSearchParams` holds; its serialisation to text is not part of
    this model. */
module ExpertList {
  import opened Common
  import opened Strings

  /** The `filters` state cell. */
  datatype Filters = Filters(
    category: string,
    tags: string,
    minRating: string,
    maxRate: string,
    language: string,
    availableNow: bool)

  /** `Partial<typeof filters>`: the keys an update names. */
  datatype FilterPatch = FilterPatch(
    category: Option<string>,
    tags: Option<string>,
    minRating: Option<string>,
    maxRate: Option<string>,
    language: Option<string>,
    availableNow: Option<bool>)

  type Params = seq<(string, string)>

  /** `{ ...filters, ...newFilters }`. */
  function ApplyPatch(f: Filters, p: FilterPatch): (r: Filters)
    ensures p.category.Some? ==> r.category == p.category.value
    ensures p.category.None? ==> r.category == f.category
    ensures p.tags.Some? ==> r.tags == p.tags.value
    ensures p.tags.None? ==> r.tags == f.tags
    ensures p.minRating.Some? ==> r.minRating == p.minRating.value
    ensures p.minRating.None? ==> r.minRating == f.minRating
    ensures p.maxRate.Some? ==> r.maxRate == p.maxRate.value
    ensures p.maxRate.None? ==> r.maxRate == f.maxRate
    ensures p.language.Some? ==> r.language == p.language.value
    ensures p.language.None? ==> r.language == f.language
    ensures p.availableNow.Some? ==> r.availableNow == p.availableNow.value
    ensures p.availableNow.None? ==> r.availableNow == f.availableNow
  {
    Filters(p.category.GetOr(f.category), p.tags.GetOr(f.tags), p.minRating.GetOr(f.minRating),
            p.maxRate.GetOr(f.maxRate), p.language.GetOr(f.language), p.availableNow.GetOr(f.availableNow))
  }

  /** An update naming no key changes nothing. */
  lemma EmptyPatchIsIdentity(f: Filters)
    ensures ApplyPatch(f, FilterPatch(None, None, None, None, None, None)) == f
  {
  }

  /** A filter's value as `Object.entries` sees it. */
  datatype FilterValue = Text(s: string) | Flag(b: bool)

  /** `if (value)`: a non-empty string, or `true`. */
  predicate Truthy(v: FilterValue) {
    match v
    case Text(s) => s != ""
    case Flag(b) => b
  }

  /** `value.toString()`. */
  function ValueString(v: FilterValue): string {
    match v
    case Text(s) => s
    case Flag(b) => if b then "true" else "false"
  }

  /** `Object.entries(filters)`, in the object's key order. */
  function Entries(f: Filters): seq<(string, FilterValue)> {
    [("category", Text(f.category)), ("tags", Text(f.tags)), ("min_rating", Text(f.minRating)),
     ("max_rate", Text(f.maxRate)), ("language", Text(f.language)), ("available_now", Flag(f.availableNow))]
  }

  /** What one entry appends: the pair when the value is truthy, nothing otherwise. */
  function EntryParams(e: (string, FilterValue)): Params {
    if Truthy(e.1) then [(e.0, ValueString(e.1))] else []
  }

  /** The parameters the `forEach` appends for a list of entries. */
  function QueryOf(es: seq<(string, FilterValue)>): Params {
    if es == [] then [] else EntryParams(es[0]) + QueryOf(es[1..])
  }

  /** The pairs of a list of entries, each value written as a string. */
  function Serialize(es: seq<(string, FilterValue)>): (r: Params)
    ensures |r| == |es|
    ensures forall i :: 0 <= i < |es| ==> r[i] == (es[i].0, ValueString(es[i].1))
  {
    if es == [] then [] else [(es[0].0, ValueString(es[0].1))] + Serialize(es[1..])
  }

  /** The query holds exactly the truthy entries, in entry order, as strings. */
  lemma {:induction false} QueryIsTruthyEntries(es: seq<(string, FilterValue)>)
    ensures QueryOf(es) == Serialize(Filter((e: (string, FilterValue)) => Truthy(e.1), es))
  {
    if es != [] {
      QueryIsTruthyEntries(es[1..]);
    }
  }

  /** A truthy value never serialises to the empty string. */
  lemma TruthyValueNonEmpty(v: FilterValue)
    requires Truthy(v)
    ensures ValueString(v) != ""
  {
  }

  lemma {:induction false} QueryOfSnoc(es: seq<(string, FilterValue)>, e: (string, FilterValue))
    ensures QueryOf(es + [e]) == QueryOf(es) + EntryParams(e)
  {
    if es == [] {
      assert es + [e] == [e];
    } else {
      assert (es + [e])[1..] == es[1..] + [e];
      QueryOfSnoc(es[1..], e);
    }
  }

  /** The `URLSearchParams` the `forEach` fills: `updateFilters` and `fetchExperts` build it
      the same way. */
  method SearchParamsFor(f: Filters) returns (params: Params)
    ensures params == QueryOf(Entries(f))
  {
    var es := Entries(f);
    params := [];
    var i := 0;
    while i < |es|
      invariant 0 <= i <= |es|
      invariant params == QueryOf(es[..i])
    {
      var key := es[i].0;
      var value := es[i].1;
      if Truthy(value) {
        params := params + [(key, ValueString(value))];
      }
      assert es[..i + 1] == es[..i] + [es[i]];
      QueryOfSnoc(es[..i], es[i]);
      i := i + 1;
    }
    assert es[..|es|] == es;
  }

  /** `searchParams.get(key)`: the first value under the key. */
  function Get(params: Params, key: string): (r: Option<string>)
    ensures r.Some? <==> exists i :: 0 <= i < |params| && params[i].0 == key
  {
    if params == [] then None
    else if params[0].0 == key then Some(params[0].1)
    else
      var r := Get(params[1..], key);
      assert forall i :: 1 <= i < |params| ==> params[i] == params[1..][i - 1];
      r
  }

  /** The first truthy entry under a key, as a string. */
  function FirstTruthy(es: seq<(string, FilterValue)>, key: string): Option<string> {
    if es == [] then None
    else if es[0].0 == key && Truthy(es[0].1) then Some(ValueString(es[0].1))
    else FirstTruthy(es[1..], key)
  }

  /** Reading a key back from a built query finds its first truthy entry. */
  lemma {:induction false} GetQueryOf(es: seq<(string, FilterValue)>, key: string)
    ensures Get(QueryOf(es), key) == FirstTruthy(es, key)
  {
    if es != [] {
      GetQueryOf(es[1..], key);
      if Truthy(es[0].1) {
        assert QueryOf(es)[1..] == QueryOf(es[1..]);
      } else {
        assert QueryOf(es) == QueryOf(es[1..]);
      }
    }
  }

  /** Under a key that only entry `i` has, the first truthy entry is that entry when it is
      truthy, and there is none otherwise. */
  lemma {:induction false} FirstTruthyUnique(es: seq<(string, FilterValue)>, key: string, i: nat)
    requires i < |es| && es[i].0 == key
    requires forall j :: 0 <= j < |es| && j != i ==> es[j].0 != key
    ensures FirstTruthy(es, key) == if Truthy(es[i].1) then Some(ValueString(es[i].1)) else None
  {
    if i > 0 {
      FirstTruthyUnique(es[1..], key, i - 1);
    } else if !Truthy(es[0].1) {
      FirstTruthyAbsent(es[1..], key);
    }
  }

  lemma {:induction false} FirstTruthyAbsent(es: seq<(string, FilterValue)>, key: string)
    requires forall j :: 0 <= j < |es| ==> es[j].0 != key
    ensures FirstTruthy(es, key) == None
  {
    if es != [] {
      FirstTruthyAbsent(es[1..], key);
    }
  }

  /** The filters a page load reads from its URL: `get(key) || ''` for the text filters, and
      `available_now` on exactly when it reads `true`. Any other parameter is ignored. */
  function InitialFilters(params: Params): (f: Filters)
    ensures f.availableNow <==> Get(params, "available_now") == Some("true")
    ensures f.category == Get(params, "category").GetOr("") && f.tags == Get(params, "tags").GetOr("")
    ensures f.minRating == Get(params, "min_rating").GetOr("") && f.maxRate == Get(params, "max_rate").GetOr("")
    ensures f.language == Get(params, "language").GetOr("")
  {
    Filters(Get(params, "category").GetOr(""), Get(params, "tags").GetOr(""), Get(params, "min_rating").GetOr(""),
            Get(params, "max_rate").GetOr(""), Get(params, "language").GetOr(""),
            Get(params, "available_now") == Some("true"))
  }

  /** Writing the filters to the URL and reading them back gives the same filters: a reload
      of the list page restores them. */
  lemma FiltersRoundTrip(f: Filters)
    ensures InitialFilters(QueryOf(Entries(f))) == f
  {
    var es := Entries(f);
    var keys := ["category", "tags", "min_rating", "max_rate", "language", "available_now"];
    forall i | 0 <= i < 6
      ensures Get(QueryOf(es), keys[i]) == if Truthy(es[i].1) then Some(ValueString(es[i].1)) else None
    {
      GetQueryOf(es, keys[i]);
      FirstTruthyUnique(es, keys[i], i);
    }
    assert keys[0] == "category" && keys[1] == "tags" && keys[2] == "min_rating";
    assert keys[3] == "max_rate" && keys[4] == "language" && keys[5] == "available_now";
  }

  /** `clearFilters`'s filters. */
  const Cleared := Filters("", "", "", "", "", false)

  /** Cleared filters write no parameters, and no parameters read back as cleared filters. */
  lemma ClearedHasEmptyQuery()
    ensures QueryOf(Entries(Cleared)) == []
    ensures InitialFilters([]) == Cleared
  {
  }

  /** The landing page's `search` parameter is not one of the list page's filters: arriving
      with only a search term shows the unfiltered list. */
  lemma SearchTermIgnored(q: string)
    ensures InitialFilters([("search", q)]) == Cleared
  {
  }

  /** `ExpertListPage`'s `filters` cell and the URL's search parameters. */
  class ListPage {
    var filters: Filters
    var searchParams: Params

    /** The filters are the ones the URL denotes. */
    predicate Synced()
      reads this
    {
      InitialFilters(searchParams) == filters
    }

    /** A page load: the filters come from the URL. */
    constructor (params: Params)
      ensures searchParams == params && filters == InitialFilters(params) && Synced()
    {
      searchParams := params;
      filters := InitialFilters(params);
    }

    /** `updateFilters`: merge, then write the merged filters to the URL. */
    method UpdateFilters(patch: FilterPatch)
      modifies this
      ensures filters == ApplyPatch(old(filters), patch)
      ensures searchParams == QueryOf(Entries(filters))
      ensures Synced()
    {
      filters := ApplyPatch(filters, patch);
      searchParams := SearchParamsFor(filters);
      FiltersRoundTrip(filters);
    }

    /** `clearFilters`: every filter off, and no parameters. */
    method ClearFilters()
      modifies this
      ensures filters == Cleared && searchParams == []
      ensures Synced()
    {
      filters := Cleared;
      searchParams := [];
    }
  }

  /** `handleSearch`: navigates only when the query has a non-whitespace character, and then
      carries the query untrimmed, URI-encoded. */
  function SearchTarget(query: string): (r: Option<string>)
    ensures r.Some? <==> exists i :: 0 <= i < |query| && !IsJsWhitespace(query[i])
    ensures r.Some? ==> r.value == "/experts?search=" + EncodeUriComponent(query)
  {
    TrimEmptyIff(query);
    if Trim(query) != "" then Some("/experts?search=" + EncodeUriComponent(query)) else None
  }

  /** Surrounding blanks are kept in the target: `" ai "` goes to `search=%20ai%20`. */
  lemma SearchKeepsBlanks()
    ensures SearchTarget(" ai ") == Some("/experts?search=" + "%20ai%20")
  {
    assert !IsJsWhitespace(" ai "[1]);
    assert EncodeUriComponent("") == "";
    assert PercentBytes(Utf8(' ' as int)) == "%20" by {
      assert Utf8(' ' as int) == [32];
      assert PercentBytes([32]) == PercentByte(32) + PercentBytes([]);
      assert HexDigit(2) == '2' && HexDigit(0) == '0';
    }
    assert EncodeUriComponent(" ") == "%20";
    assert EncodeUriComponent("i ") == "i" + EncodeUriComponent(" ");
    assert EncodeUriComponent("ai ") == "a" + EncodeUriComponent("i ");
    assert EncodeUriComponent(" ai ") == "%20" + EncodeUriComponent("ai ");
    assert EncodeUriComponent(" ai ") == "%20ai%20";
    assert Trim(" ai ") != "";
  }

  /** A query of blanks only does not navigate. */
  lemma SearchNeedsText()
    ensures SearchTarget("   ") == None
  {
    var blank := "   ";
    assert forall i :: 0 <= i < |blank| ==> IsJsWhitespace(blank[i]);
    TrimEmptyIff(blank);
  }

  const MaxCategories: nat := 8
  const LandingTagChips: nat := 3
  const ListTagChips: nat := 4

  /** `data.slice(0, 8)`: the categories the landing page shows. */
  function ShownCategories<C(==)>(categories: seq<C>): (r: seq<C>)
    ensures |r| == Min(|categories|, MaxCategories) && IsPrefix(r, categories)
  {
    Take(categories, MaxCategories)
  }

  /** `expertise_tags.slice(0, 3)` on the landing page and `slice(0, 4)` on the list page. */
  function TagChips(tags: seq<string>, onLanding: bool): (r: seq<string>)
    ensures |r| == Min(|tags|, if onLanding then LandingTagChips else ListTagChips)
    ensures IsPrefix(r, tags)
  {
    Take(tags, if onLanding then LandingTagChips else ListTagChips)
  }
}
