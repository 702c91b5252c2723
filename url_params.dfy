/**
 * `useUrlParams`: reading the filter record, the sort kind and the page from
 * the page's query string, and writing them back into it.
 *
 * A query is the list of a `URLSearchParams`'s entries. Its text form is
 * `name=value` pairs joined by `&`; percent-encoding is not modelled, so the
 * text layer is stated for names and values that need none.
 */
module UrlParams {
  import opened Wrappers
  import opened Text
  import opened FrontendTypes

  type Query = seq<(string, string)>

  /** `searchParams.get(name)`: the first value stored under the name. */
  function Lookup(q: Query, name: string): (r: Option<string>)
    ensures r.Some? ==> (name, r.value) in q
  {
    if q == [] then None
    else if q[0].0 == name then Some(q[0].1)
    else Lookup(q[1..], name)
  }

  /** A name is found exactly when some entry carries it. */
  lemma {:induction false} LookupNone(q: Query, name: string)
    ensures Lookup(q, name).None? <==> forall e :: e in q ==> e.0 != name
  {
    if q != [] {
      LookupNone(q[1..], name);
      assert forall e :: e in q ==> e == q[0] || e in q[1..];
    }
  }

  /** Looking up in a concatenation: the first part wins. */
  lemma {:induction false} LookupAppend(a: Query, b: Query, name: string)
    ensures Lookup(a + b, name) == if Lookup(a, name).Some? then Lookup(a, name) else Lookup(b, name)
  {
    if a != [] {
      assert (a + b)[0] == a[0] && (a + b)[1..] == a[1..] + b;
      LookupAppend(a[1..], b, name);
    } else {
      assert a + b == b;
    }
  }

  /** A parameter that is present and not empty, as `if (value)` admits it. */
  function Given(q: Query, name: string): (r: Option<string>)
    ensures r.Some? <==> Lookup(q, name).Some? && Lookup(q, name).value != []
    ensures r.Some? ==> r == Lookup(q, name)
  {
    var v := Lookup(q, name);
    if v.Some? && v.value != [] then v else None
  }

  function ReadSortOrder(s: Option<string>): Option<SortOrder> {
    if s == Some("asc") then Some(Asc)
    else if s == Some("desc") then Some(Desc)
    else None
  }

  // ---------------------------------------------------------------------
  // Reading.

  /** What the query says about one key of the filter record: search, the
      two prices and the sort order are read, every other key is not. */
  function ReadKey(q: Query, k: FilterKey): Option<Value> {
    match k
    case Search => if Given(q, "search").Some? then Some(Str(Given(q, "search").value)) else None
    case PriceMin => if Given(q, "minPrice").Some? then Some(ParsedNumber(Given(q, "minPrice").value)) else None
    case PriceMax => if Given(q, "maxPrice").Some? then Some(ParsedNumber(Given(q, "maxPrice").value)) else None
    case SortOrderKey =>
      var o := ReadSortOrder(Lookup(q, "sortOrder"));
      if o.Some? then Some(Order(o.value)) else None
    case _ => None
  }

  /** `if (x) filters.k = x`: the key is set only when the query sets it. */
  function Put(f: Filters, k: FilterKey, v: Option<Value>): Filters {
    if v.Some? then f[k := v.value] else f
  }

  /** The record `getFiltersFromUrl` returns. */
  function FiltersFromUrl(q: Query): Filters {
    var f := Put(map[], Search, ReadKey(q, Search));
    var f := Put(f, PriceMin, ReadKey(q, PriceMin));
    var f := Put(f, PriceMax, ReadKey(q, PriceMax));
    Put(f, SortOrderKey, ReadKey(q, SortOrderKey))
  }

  /** The record holds a key exactly when the query sets it, with the value
      the query gives; only search, the prices and the sort order can be
      set. */
  lemma FiltersFromUrlMeaning(q: Query, k: FilterKey)
    ensures k in FiltersFromUrl(q) <==> ReadKey(q, k).Some?
    ensures k in FiltersFromUrl(q) ==> FiltersFromUrl(q)[k] == ReadKey(q, k).value
    ensures k in FiltersFromUrl(q) ==> k in {Search, PriceMin, PriceMax, SortOrderKey}
  {
  }

  method GetFiltersFromUrl(q: Query) returns (filters: Filters)
    ensures filters == FiltersFromUrl(q)
  {
    filters := map[];
    var search := Lookup(q, "search");
    if search.Some? && search.value != [] {
      filters := filters[Search := Str(search.value)];
    }
    assert filters == Put(map[], Search, ReadKey(q, Search));
    filters := ReadPrices(q, filters);
    var sortOrder := Lookup(q, "sortOrder");
    if sortOrder == Some("asc") || sortOrder == Some("desc") {
      filters := filters[SortOrderKey := Order(if sortOrder == Some("asc") then Asc else Desc)];
    }
  }

  method ReadPrices(q: Query, filters: Filters) returns (r: Filters)
    ensures r == Put(Put(filters, PriceMin, ReadKey(q, PriceMin)), PriceMax, ReadKey(q, PriceMax))
  {
    r := filters;
    var minPrice := Lookup(q, "minPrice");
    if minPrice.Some? && minPrice.value != [] {
      r := r[PriceMin := ParsedNumber(minPrice.value)];
    }
    var maxPrice := Lookup(q, "maxPrice");
    if maxPrice.Some? && maxPrice.value != [] {
      r := r[PriceMax := ParsedNumber(maxPrice.value)];
    }
  }

  /** `switch (sortBy.toLowerCase())`, with the aliases of the two dates. */
  function SortByFromName(name: string): Option<SortBy> {
    var lower := ToLower(name);
    if lower == "price" then Some(Price)
    else if lower == "createdat" || lower == "date_created" then Some(DateCreated)
    else if lower == "updatedat" || lower == "date_updated" then Some(DateUpdated)
    else if lower == "area" then Some(Area)
    else if lower == "bedrooms" then Some(Bedrooms)
    else None
  }

  /** `getSortByFromUrl`: a missing or empty parameter gives no sort kind. */
  function SortByFromUrl(q: Query): Option<SortBy> {
    var v := Given(q, "sortBy");
    if v.None? then None else SortByFromName(v.value)
  }

  /** `getPageFromUrl`: 1 without a page, `Math.max(1, n)` for a number;
      `None` is the `NaN` that `Math.max` returns for a page that does not
      start with a number. */
  function PageFromUrl(q: Query): (r: Option<int>)
    ensures r.Some? ==> r.value >= 1
    ensures r.None? <==> Given(q, "page").Some? && ParseIntJs(Given(q, "page").value).None?
  {
    var v := Given(q, "page");
    if v.None? then Some(1)
    else
      var n := ParseIntJs(v.value);
      if n.None? then None else Some(if n.value > 1 then n.value else 1)
  }

  // ---------------------------------------------------------------------
  // Writing.

  /** `URLSearchParams.set`: the first entry under the name takes the new
      value and later ones go; without one the entry is appended. */
  function SetParam(q: Query, name: string, value: string): Query {
    if q == [] then [(name, value)]
    else if q[0].0 == name then [(name, value)] + RemoveParam(q[1..], name)
    else [q[0]] + SetParam(q[1..], name, value)
  }

  function RemoveParam(q: Query, name: string): Query {
    if q == [] then []
    else (if q[0].0 == name then [] else [q[0]]) + RemoveParam(q[1..], name)
  }

  lemma {:induction false} SetNewParam(q: Query, name: string, value: string)
    requires Lookup(q, name).None?
    ensures SetParam(q, name, value) == q + [(name, value)]
  {
    if q != [] {
      SetNewParam(q[1..], name, value);
      assert [q[0]] + (q[1..] + [(name, value)]) == q + [(name, value)];
    }
  }

  function Entry(present: bool, name: string, value: string): Query {
    if present then [(name, value)] else []
  }

  /** The entries for the filter record: each truthy value, in order. */
  function FilterEntries(f: Filters): Query {
    Entry(Truthy(Get(f, Search)), "search", Written(Get(f, Search)))
    + Entry(Truthy(Get(f, PriceMin)), "minPrice", Written(Get(f, PriceMin)))
    + Entry(Truthy(Get(f, PriceMax)), "maxPrice", Written(Get(f, PriceMax)))
    + Entry(Truthy(Get(f, SortOrderKey)), "sortOrder", Written(Get(f, SortOrderKey)))
  }

  /** The entries for the sort kind, when there is one, and the page, when
      it is past the first. The switch writes each kind's enum string. */
  function PagingEntries(sortBy: Option<SortBy>, page: int): Query {
    Entry(sortBy.Some?, "sortBy", if sortBy.Some? then sortBy.value.Value() else "")
    + Entry(page > 1, "page", IntToString(page))
  }

  /** The query `updateUrlParams` builds. */
  function UrlQuery(f: Filters, sortBy: Option<SortBy>, page: int): Query {
    FilterEntries(f) + PagingEntries(sortBy, page)
  }

  function PairText(e: (string, string)): string {
    e.0 + "=" + e.1
  }

  function PairTexts(q: Query): (r: seq<string>)
    ensures |r| == |q|
  {
    if q == [] then [] else [PairText(q[0])] + PairTexts(q[1..])
  }

  /** `params.toString()`. */
  function QueryString(q: Query): string {
    Join(PairTexts(q), '&')
  }

  /** The address `router.push` gets: the page's own path without
      parameters, otherwise `?` and the query. */
  function Target(q: Query): string {
    if q == [] then "/properties" else "?" + QueryString(q)
  }

  method UpdateUrlParams(filters: Filters, sortBy: Option<SortBy>, page: int) returns (params: Query, target: string)
    ensures params == UrlQuery(filters, sortBy, page)
    ensures target == Target(params)
  {
    params := SetFilterParams(filters);
    FilterEntryNames(filters);
    params := SetPagingParams(params, sortBy, page);
    target := if params != [] then "?" + QueryString(params) else "/properties";
  }

  /** The four `if (filters.x) params.set(...)` steps. */
  method SetFilterParams(filters: Filters) returns (params: Query)
    ensures params == FilterEntries(filters)
  {
    var e1 := Entry(Truthy(Get(filters, Search)), "search", Written(Get(filters, Search)));
    var e2 := Entry(Truthy(Get(filters, PriceMin)), "minPrice", Written(Get(filters, PriceMin)));
    var e3 := Entry(Truthy(Get(filters, PriceMax)), "maxPrice", Written(Get(filters, PriceMax)));
    params := SetIfTruthy([], Get(filters, Search), "search");
    LookupAppend([], e1, "minPrice");
    params := SetIfTruthy(params, Get(filters, PriceMin), "minPrice");
    LookupAppend(e1, e2, "maxPrice");
    params := SetIfTruthy(params, Get(filters, PriceMax), "maxPrice");
    LookupAppend(e1 + e2, e3, "sortOrder");
    LookupAppend(e1, e2, "sortOrder");
    params := SetIfTruthy(params, Get(filters, SortOrderKey), "sortOrder");
  }

  /** `if (v) params.set(name, String(v))`, for a name not yet set. */
  method SetIfTruthy(params: Query, v: Value, name: string) returns (r: Query)
    requires Lookup(params, name).None?
    ensures r == params + Entry(Truthy(v), name, Written(v))
  {
    r := params;
    if Truthy(v) {
      SetNewParam(r, name, Written(v));
      r := SetParam(r, name, Written(v));
    }
  }

  /** The sort-kind `switch` and the page step. */
  method SetPagingParams(params: Query, sortBy: Option<SortBy>, page: int) returns (r: Query)
    requires forall e :: e in params ==> e.0 in {"search", "minPrice", "maxPrice", "sortOrder"}
    ensures r == params + PagingEntries(sortBy, page)
  {
    r := params;
    LookupNone(params, "sortBy");
    if sortBy.Some? {
      SetNewParam(params, "sortBy", sortBy.value.Value());
      match sortBy.value {
        case Price => r := SetParam(r, "sortBy", "price");
        case DateCreated => r := SetParam(r, "sortBy", "createdAt");
        case DateUpdated => r := SetParam(r, "sortBy", "updatedAt");
        case Area => r := SetParam(r, "sortBy", "area");
        case Bedrooms => r := SetParam(r, "sortBy", "bedrooms");
      }
    }
    var sorted := r;
    assert sorted == params + Entry(sortBy.Some?, "sortBy", if sortBy.Some? then sortBy.value.Value() else "");
    if page > 1 {
      LookupAppend(params, sorted[|params|..], "page");
      assert sorted == params + sorted[|params|..];
      LookupNone(params, "page");
      SetNewParam(r, "page", IntToString(page));
      r := SetParam(r, "page", IntToString(page));
    }
  }

  /** Every name `SetFilterParams` writes is one of its four. */
  lemma FilterEntryNames(f: Filters)
    ensures forall e :: e in FilterEntries(f) ==> e.0 in {"search", "minPrice", "maxPrice", "sortOrder"}
  {
  }

  // ---------------------------------------------------------------------
  // What is written, and reading it back.

  /** Looking up a name in the written query: the entry for that name
      decides, because the six entries carry six different names. */
  lemma {:induction false} LookupWritten(f: Filters, sortBy: Option<SortBy>, page: int, name: string, value: Option<string>)
    requires name in {"search", "minPrice", "maxPrice", "sortOrder", "sortBy", "page"}
    requires name == "search" ==> value == (if Truthy(Get(f, Search)) then Some(Written(Get(f, Search))) else None)
    requires name == "minPrice" ==> value == (if Truthy(Get(f, PriceMin)) then Some(Written(Get(f, PriceMin))) else None)
    requires name == "maxPrice" ==> value == (if Truthy(Get(f, PriceMax)) then Some(Written(Get(f, PriceMax))) else None)
    requires name == "sortOrder" ==> value == (if Truthy(Get(f, SortOrderKey)) then Some(Written(Get(f, SortOrderKey))) else None)
    requires name == "sortBy" ==> value == (if sortBy.Some? then Some(sortBy.value.Value()) else None)
    requires name == "page" ==> value == (if page > 1 then Some(IntToString(page)) else None)
    ensures Lookup(UrlQuery(f, sortBy, page), name) == value
  {
    LookupAppend(FilterEntries(f), PagingEntries(sortBy, page), name);
    if name == "sortBy" || name == "page" {
      LookupFilterEntriesOther(f, name);
      LookupAppend(Entry(sortBy.Some?, "sortBy", if sortBy.Some? then sortBy.value.Value() else ""), Entry(page > 1, "page", IntToString(page)), name);
    } else {
      LookupPagingEntriesOther(sortBy, page, name);
      var k := if name == "search" then Search else if name == "minPrice" then PriceMin
        else if name == "maxPrice" then PriceMax else SortOrderKey;
      LookupFilterEntries(f, k, name);
    }
  }

  /** The filter entries: the entry for the name decides. */
  lemma LookupFilterEntries(f: Filters, k: FilterKey, name: string)
    requires (k, name) in {(Search, "search"), (PriceMin, "minPrice"), (PriceMax, "maxPrice"), (SortOrderKey, "sortOrder")}
    ensures Lookup(FilterEntries(f), name) == if Truthy(Get(f, k)) then Some(Written(Get(f, k))) else None
  {
    var e1 := Entry(Truthy(Get(f, Search)), "search", Written(Get(f, Search)));
    var e2 := Entry(Truthy(Get(f, PriceMin)), "minPrice", Written(Get(f, PriceMin)));
    var e3 := Entry(Truthy(Get(f, PriceMax)), "maxPrice", Written(Get(f, PriceMax)));
    var e4 := Entry(Truthy(Get(f, SortOrderKey)), "sortOrder", Written(Get(f, SortOrderKey)));
    LookupAppend(e1 + e2 + e3, e4, name);
    LookupAppend(e1 + e2, e3, name);
    LookupAppend(e1, e2, name);
  }

  lemma LookupFilterEntriesOther(f: Filters, name: string)
    requires name == "sortBy" || name == "page"
    ensures Lookup(FilterEntries(f), name) == None
  {
    LookupNone(FilterEntries(f), name);
  }

  lemma LookupPagingEntriesOther(sortBy: Option<SortBy>, page: int, name: string)
    requires name in {"search", "minPrice", "maxPrice", "sortOrder"}
    ensures Lookup(PagingEntries(sortBy, page), name) == None
  {
    LookupNone(PagingEntries(sortBy, page), name);
  }

  /** `updateUrlParams` writes each truthy filter, the sort kind when there
      is one and the page only past the first, and nothing else. */
  lemma UrlQueryWrites(f: Filters, sortBy: Option<SortBy>, page: int)
    ensures Lookup(UrlQuery(f, sortBy, page), "search") == (if Truthy(Get(f, Search)) then Some(Written(Get(f, Search))) else None)
    ensures Lookup(UrlQuery(f, sortBy, page), "minPrice") == (if Truthy(Get(f, PriceMin)) then Some(Written(Get(f, PriceMin))) else None)
    ensures Lookup(UrlQuery(f, sortBy, page), "maxPrice") == (if Truthy(Get(f, PriceMax)) then Some(Written(Get(f, PriceMax))) else None)
    ensures Lookup(UrlQuery(f, sortBy, page), "sortOrder") == (if Truthy(Get(f, SortOrderKey)) then Some(Written(Get(f, SortOrderKey))) else None)
    ensures Lookup(UrlQuery(f, sortBy, page), "sortBy") == (if sortBy.Some? then Some(sortBy.value.Value()) else None)
    ensures Lookup(UrlQuery(f, sortBy, page), "page") == (if page > 1 then Some(IntToString(page)) else None)
  {
    LookupWritten(f, sortBy, page, "search", if Truthy(Get(f, Search)) then Some(Written(Get(f, Search))) else None);
    LookupWritten(f, sortBy, page, "minPrice", if Truthy(Get(f, PriceMin)) then Some(Written(Get(f, PriceMin))) else None);
    LookupWritten(f, sortBy, page, "maxPrice", if Truthy(Get(f, PriceMax)) then Some(Written(Get(f, PriceMax))) else None);
    LookupWritten(f, sortBy, page, "sortOrder", if Truthy(Get(f, SortOrderKey)) then Some(Written(Get(f, SortOrderKey))) else None);
    LookupWritten(f, sortBy, page, "sortBy", if sortBy.Some? then Some(sortBy.value.Value()) else None);
    LookupWritten(f, sortBy, page, "page", if page > 1 then Some(IntToString(page)) else None);
  }

  lemma LowerCreatedAt()
    ensures ToLower("createdAt") == "createdat"
  {
    LowerOneChar("created", 'A', "t");
    assert "created" + ['A'] + "t" == "createdAt";
    assert "created" + [LowerChar('A')] + "t" == "createdat";
  }

  lemma LowerUpdatedAt()
    ensures ToLower("updatedAt") == "updatedat"
  {
    LowerOneChar("updated", 'A', "t");
    assert "updated" + ['A'] + "t" == "updatedAt";
    assert "updated" + [LowerChar('A')] + "t" == "updatedat";
  }

  /** Reading a written sort kind gives it back. */
  lemma SortNameRoundTrip(s: SortBy)
    ensures SortByFromName(s.Value()) == Some(s)
  {
    match s {
      case Price => ReadPrice();
      case DateCreated => ReadCreatedAt();
      case DateUpdated => ReadUpdatedAt();
      case Area => ReadArea();
      case Bedrooms => ReadBedrooms();
    }
  }

  lemma ReadPrice()
    ensures SortByFromName("price") == Some(Price)
  {
    ToLowerOfLower("price");
  }

  lemma ReadCreatedAt()
    ensures SortByFromName("createdAt") == Some(DateCreated)
  {
    LowerCreatedAt();
  }

  lemma ReadUpdatedAt()
    ensures SortByFromName("updatedAt") == Some(DateUpdated)
  {
    LowerUpdatedAt();
  }

  lemma ReadArea()
    ensures SortByFromName("area") == Some(Area)
  {
    ToLowerOfLower("area");
  }

  lemma ReadBedrooms()
    ensures SortByFromName("bedrooms") == Some(Bedrooms)
  {
    ToLowerOfLower("bedrooms");
  }

  /** The sort kind read back from a written query is the one written. */
  lemma SortByRoundTrip(f: Filters, sortBy: Option<SortBy>, page: int)
    ensures SortByFromUrl(UrlQuery(f, sortBy, page)) == sortBy
  {
    LookupWritten(f, sortBy, page, "sortBy", if sortBy.Some? then Some(sortBy.value.Value()) else None);
    if sortBy.Some? {
      SortNameRoundTrip(sortBy.value);
    }
  }

  /** A page of at least 1 written out reads back unchanged. */
  lemma PageRoundTrip(f: Filters, sortBy: Option<SortBy>, page: int)
    requires page >= 1
    ensures PageFromUrl(UrlQuery(f, sortBy, page)) == Some(page)
  {
    LookupWritten(f, sortBy, page, "page", if page > 1 then Some(IntToString(page)) else None);
    if page > 1 {
      ParseIntJsOfToString(page);
    }
  }

  /** The filters `updateUrlParams` can write hold values of their declared
      types: a string search, number prices and an order. */
  predicate UrlTyped(f: Filters) {
    && (Truthy(Get(f, Search)) ==> Get(f, Search).Str?)
    && (Truthy(Get(f, PriceMin)) ==> Get(f, PriceMin).Number?)
    && (Truthy(Get(f, PriceMax)) ==> Get(f, PriceMax).Number?)
    && (Truthy(Get(f, SortOrderKey)) ==> Get(f, SortOrderKey).Order?)
  }

  /** A key's value when it is truthy. */
  function Kept(f: Filters, k: FilterKey): Option<Value> {
    if Truthy(Get(f, k)) then Some(Get(f, k)) else None
  }

  /** The part of a filter record that the address carries: its truthy
      search, prices and sort order. */
  function UrlPart(f: Filters): Filters {
    var r := Put(map[], Search, Kept(f, Search));
    var r := Put(r, PriceMin, Kept(f, PriceMin));
    var r := Put(r, PriceMax, Kept(f, PriceMax));
    Put(r, SortOrderKey, Kept(f, SortOrderKey))
  }

  /** A written price reads back as the same number. */
  lemma PriceReadBack(f: Filters, sortBy: Option<SortBy>, page: int, k: FilterKey, name: string)
    requires (k == PriceMin && name == "minPrice") || (k == PriceMax && name == "maxPrice")
    requires Truthy(Get(f, k)) ==> Get(f, k).Number?
    ensures ReadKey(UrlQuery(f, sortBy, page), k) == Kept(f, k)
  {
    LookupWritten(f, sortBy, page, name, if Truthy(Get(f, k)) then Some(Written(Get(f, k))) else None);
    if Truthy(Get(f, k)) {
      ParseIntJsOfToString(Get(f, k).n);
    }
  }

  /** A written search or sort order reads back unchanged. */
  lemma TextReadBack(f: Filters, sortBy: Option<SortBy>, page: int, k: FilterKey, name: string)
    requires (k == Search && name == "search") || (k == SortOrderKey && name == "sortOrder")
    requires k == Search && Truthy(Get(f, k)) ==> Get(f, k).Str?
    requires k == SortOrderKey && Truthy(Get(f, k)) ==> Get(f, k).Order?
    ensures ReadKey(UrlQuery(f, sortBy, page), k) == Kept(f, k)
  {
    LookupWritten(f, sortBy, page, name, if Truthy(Get(f, k)) then Some(Written(Get(f, k))) else None);
  }

  /** Writing a filter record and reading it back gives its truthy search,
      prices and sort order unchanged. */
  lemma FiltersRoundTrip(f: Filters, sortBy: Option<SortBy>, page: int)
    requires UrlTyped(f)
    ensures FiltersFromUrl(UrlQuery(f, sortBy, page)) == UrlPart(f)
  {
    TextReadBack(f, sortBy, page, Search, "search");
    PriceReadBack(f, sortBy, page, PriceMin, "minPrice");
    PriceReadBack(f, sortBy, page, PriceMax, "maxPrice");
    TextReadBack(f, sortBy, page, SortOrderKey, "sortOrder");
  }

  // ---------------------------------------------------------------------
  // The address as text: `URLSearchParams` reading back what `toString`
  // wrote.

  /** The pairs of the parts of a query string: empty parts are skipped and
      a part without `=` is a name with the empty value. */
  function ParsePairs(parts: seq<string>): Query {
    if parts == [] then []
    else (if parts[0] == [] then [] else [SplitAtFirst(parts[0], '=')]) + ParsePairs(parts[1..])
  }

  /** `new URLSearchParams(s)` for a query string without `?`. */
  function ParseQuery(s: string): Query {
    ParsePairs(Split(s, '&'))
  }

  /** The parameters of the address `router.push` was given: the query after
      `?`, or none for a plain path. */
  function QueryOfTarget(t: string): Query {
    if t != [] && t[0] == '?' then ParseQuery(t[1..]) else []
  }

  /** A pair whose text needs no escaping: no `&` anywhere and no `=` in
      the name. */
  predicate Plain(e: (string, string)) {
    '&' !in e.0 && '&' !in e.1 && '=' !in e.0
  }

  predicate PlainQuery(q: Query) {
    forall e :: e in q ==> Plain(e)
  }

  lemma PairTextPlain(e: (string, string))
    requires Plain(e)
    ensures PairText(e) != [] && '&' !in PairText(e)
    ensures SplitAtFirst(PairText(e), '=') == e
  {
    assert PairText(e) == e.0 + ['='] + e.1;
    SplitAtFirstOf(e.0, e.1, '=');
  }

  lemma {:induction false} ParsePairTexts(q: Query)
    requires PlainQuery(q)
    ensures ParsePairs(PairTexts(q)) == q
    ensures forall k :: 0 <= k < |PairTexts(q)| ==> '&' !in PairTexts(q)[k]
  {
    if q != [] {
      PairTextPlain(q[0]);
      ParsePairTexts(q[1..]);
      assert PairTexts(q)[1..] == PairTexts(q[1..]);
      assert [q[0]] + q[1..] == q;
    }
  }

  /** Reading back the query string of plain pairs gives the pairs. */
  lemma QueryTextRoundTrip(q: Query)
    requires PlainQuery(q)
    ensures ParseQuery(QueryString(q)) == q
  {
    ParsePairTexts(q);
    if q != [] {
      SplitOfJoin(PairTexts(q), '&');
    }
  }

  /** Loading the address `updateUrlParams` pushes gives back the query it
      built. */
  lemma TargetRoundTrip(q: Query)
    requires PlainQuery(q)
    ensures QueryOfTarget(Target(q)) == q
  {
    if q != [] {
      QueryTextRoundTrip(q);
      assert Target(q)[1..] == QueryString(q);
    }
  }

  lemma IntStringPlain(s: string)
    requires IsIntString(s)
    ensures '&' !in s && '=' !in s
  {
  }

  lemma PlainAppend(a: Query, b: Query)
    requires PlainQuery(a) && PlainQuery(b)
    ensures PlainQuery(a + b)
  {
  }

  lemma EntryPlain(present: bool, name: string, value: string)
    requires present ==> Plain((name, value))
    ensures PlainQuery(Entry(present, name, value))
  {
  }

  lemma FilterEntriesPlain(f: Filters)
    requires UrlTyped(f)
    requires Get(f, Search).Str? ==> '&' !in Get(f, Search).s
    ensures PlainQuery(FilterEntries(f))
  {
    var e1 := Entry(Truthy(Get(f, Search)), "search", Written(Get(f, Search)));
    var e2 := Entry(Truthy(Get(f, PriceMin)), "minPrice", Written(Get(f, PriceMin)));
    var e3 := Entry(Truthy(Get(f, PriceMax)), "maxPrice", Written(Get(f, PriceMax)));
    var e4 := Entry(Truthy(Get(f, SortOrderKey)), "sortOrder", Written(Get(f, SortOrderKey)));
    EntryPlain(Truthy(Get(f, Search)), "search", Written(Get(f, Search)));
    if Truthy(Get(f, PriceMin)) {
      IntStringPlain(IntToString(Get(f, PriceMin).n));
    }
    EntryPlain(Truthy(Get(f, PriceMin)), "minPrice", Written(Get(f, PriceMin)));
    if Truthy(Get(f, PriceMax)) {
      IntStringPlain(IntToString(Get(f, PriceMax).n));
    }
    EntryPlain(Truthy(Get(f, PriceMax)), "maxPrice", Written(Get(f, PriceMax)));
    EntryPlain(Truthy(Get(f, SortOrderKey)), "sortOrder", Written(Get(f, SortOrderKey)));
    PlainAppend(e1, e2);
    PlainAppend(e1 + e2, e3);
    PlainAppend(e1 + e2 + e3, e4);
  }

  lemma PagingEntriesPlain(sortBy: Option<SortBy>, page: int)
    ensures PlainQuery(PagingEntries(sortBy, page))
  {
    IntStringPlain(IntToString(page));
    EntryPlain(sortBy.Some?, "sortBy", if sortBy.Some? then sortBy.value.Value() else "");
    EntryPlain(page > 1, "page", IntToString(page));
    PlainAppend(Entry(sortBy.Some?, "sortBy", if sortBy.Some? then sortBy.value.Value() else ""), Entry(page > 1, "page", IntToString(page)));
  }

  /** Every pair `updateUrlParams` writes is plain when the search text has
      no `&`: the other values are numbers, orders and sort names. */
  lemma UrlQueryPlain(f: Filters, sortBy: Option<SortBy>, page: int)
    requires UrlTyped(f)
    requires Get(f, Search).Str? ==> '&' !in Get(f, Search).s
    ensures PlainQuery(UrlQuery(f, sortBy, page))
  {
    FilterEntriesPlain(f);
    PagingEntriesPlain(sortBy, page);
    PlainAppend(FilterEntries(f), PagingEntries(sortBy, page));
  }

  /** Loading the address that `updateUrlParams` pushes restores the state
      it was given: the truthy search, prices and order, the sort kind and
      the page. */
  lemma AddressRoundTrip(f: Filters, sortBy: Option<SortBy>, page: int)
    requires UrlTyped(f) && page >= 1
    requires Get(f, Search).Str? ==> '&' !in Get(f, Search).s
    ensures FiltersFromUrl(QueryOfTarget(Target(UrlQuery(f, sortBy, page)))) == UrlPart(f)
    ensures SortByFromUrl(QueryOfTarget(Target(UrlQuery(f, sortBy, page)))) == sortBy
    ensures PageFromUrl(QueryOfTarget(Target(UrlQuery(f, sortBy, page)))) == Some(page)
  {
    UrlQueryPlain(f, sortBy, page);
    TargetRoundTrip(UrlQuery(f, sortBy, page));
    FiltersRoundTrip(f, sortBy, page);
    SortByRoundTrip(f, sortBy, page);
    PageRoundTrip(f, sortBy, page);
  }
}
