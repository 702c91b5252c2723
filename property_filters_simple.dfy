/**
 * `PropertyFiltersSimple`: the compact filter panel. It does not own the
 * filter record: it gets `filters` as a prop and reports every change by
 * calling `onFiltersChange` with a new record built from that prop. The
 * calls it makes are the field `emitted`, oldest first.
 */
module PropertyFiltersSimple {
  import opened Text
  import opened FrontendTypes
  import opened UsePropertyFilters

  /** `filters.sortBy !== DATE_CREATED ? filters.sortBy : null`. */
  function SortByEntry(v: Value): Value {
    if v == Sort(DateCreated) then Undefined else v
  }

  /** `filters.sortOrder !== 'desc' ? filters.sortOrder : null`. */
  function SortOrderEntry(v: Value): Value {
    if v == Order(Desc) then Undefined else v
  }

  /** The seven values `getActiveFiltersCount` tests. */
  function CountedValues(f: Filters): seq<Value> {
    [Get(f, Search), Get(f, PriceMin), Get(f, PriceMax), Get(f, YearBuiltMin), Get(f, YearBuiltMax),
     SortByEntry(Get(f, SortByKey)), SortOrderEntry(Get(f, SortOrderKey))]
  }

  /** `getActiveFiltersCount`: how many of the seven are truthy. */
  function ActiveFiltersCount(f: Filters): (n: nat)
    ensures n <= 7
  {
    CountTruthy(CountedValues(f))
  }

  /** No filter is active exactly when the search is empty, the four bounds
      are unset, zero or `NaN`, and the sort is unset or newest first. */
  lemma NoActiveFilters(f: Filters)
    ensures ActiveFiltersCount(f) == 0 <==>
      && !Truthy(Get(f, Search))
      && !Truthy(Get(f, PriceMin)) && !Truthy(Get(f, PriceMax))
      && !Truthy(Get(f, YearBuiltMin)) && !Truthy(Get(f, YearBuiltMax))
      && (Get(f, SortByKey) == Sort(DateCreated) || !Truthy(Get(f, SortByKey)))
      && (Get(f, SortOrderKey) == Order(Desc) || !Truthy(Get(f, SortOrderKey)))
  {
    var vs := CountedValues(f);
    CountTruthyZero(vs);
    assert vs[0] == Get(f, Search) && vs[1] == Get(f, PriceMin) && vs[2] == Get(f, PriceMax);
    assert vs[3] == Get(f, YearBuiltMin) && vs[4] == Get(f, YearBuiltMax);
    assert vs[5] == SortByEntry(Get(f, SortByKey)) && vs[6] == SortOrderEntry(Get(f, SortOrderKey));
  }

  /** The badge and the Clear button show exactly when a filter is active. */
  predicate ClearShown(f: Filters) {
    ActiveFiltersCount(f) > 0
  }

  /** The hook's defaults count as no filter, so right after a reset the
      Clear button is gone. */
  lemma DefaultsShowNoClear()
    ensures ActiveFiltersCount(DefaultFilters) == 0
    ensures !ClearShown(DefaultFilters)
  {
    NoActiveFilters(DefaultFilters);
  }

  /** What a price box stores: `''` is `undefined`, anything else is what
      `parseInt(value, 10)` reads. */
  function PriceInput(value: string): (v: Value)
    ensures value == [] ==> v == Undefined
    ensures value != [] ==> v.Number? || v.NotANumber?
  {
    if value == [] then Undefined else ParsedNumber(value)
  }

  /** A typed integer is stored as that number. */
  lemma PriceInputOfNumber(n: int)
    ensures PriceInput(IntToString(n)) == Number(n)
  {
    ParseIntJsOfToString(n);
  }

  /** `filters.priceMin?.toString() || ''`. */
  function InitialText(v: Value): string {
    if v.Undefined? then [] else Written(v)
  }

  /** The two records a range handler emits are both built from the same
      incoming `filters`: the second, which a parent that keeps the last
      record ends up with, carries the new upper bound and the OLD lower
      bound. */
  lemma RangeKeepsStaleMin(f: Filters, minKey: FilterKey, maxKey: FilterKey, lo: int, hi: int)
    requires minKey != maxKey
    ensures Get(Updated(f, maxKey, Number(hi)), maxKey) == Number(hi)
    ensures Get(Updated(f, maxKey, Number(hi)), minKey) == Get(f, minKey)
    ensures Get(f, minKey) != Number(lo) ==> Get(Updated(f, maxKey, Number(hi)), minKey) != Number(lo)
  {
  }

  class FiltersSimple {
    /** The `filters` prop, fixed for this rendering. */
    const filters: Filters
    var minPrice: string
    var maxPrice: string
    /** The records passed to `onFiltersChange`, oldest first. */
    var emitted: seq<Filters>

    constructor(filters: Filters)
      ensures this.filters == filters && emitted == []
      ensures minPrice == InitialText(Get(filters, PriceMin))
      ensures maxPrice == InitialText(Get(filters, PriceMax))
    {
      this.filters := filters;
      minPrice := InitialText(Get(filters, PriceMin));
      maxPrice := InitialText(Get(filters, PriceMax));
      emitted := [];
    }

    /** `updateFilter(key, value)`: `onFiltersChange({ ...filters, [key]: value })`. */
    method UpdateFilter(k: FilterKey, v: Value)
      modifies this
      ensures emitted == old(emitted) + [Updated(filters, k, v)]
      ensures minPrice == old(minPrice) && maxPrice == old(maxPrice)
    {
      emitted := emitted + [filters[k := v]];
    }

    method HandleMinPriceChange(value: string)
      modifies this
      ensures minPrice == value && maxPrice == old(maxPrice)
      ensures emitted == old(emitted) + [Updated(filters, PriceMin, PriceInput(value))]
    {
      minPrice := value;
      var numValue := if value != "" then ParsedNumber(value) else Undefined;
      UpdateFilter(PriceMin, numValue);
    }

    method HandleMaxPriceChange(value: string)
      modifies this
      ensures maxPrice == value && minPrice == old(minPrice)
      ensures emitted == old(emitted) + [Updated(filters, PriceMax, PriceInput(value))]
    {
      maxPrice := value;
      var numValue := if value != "" then ParsedNumber(value) else Undefined;
      UpdateFilter(PriceMax, numValue);
    }

    /** The price slider: two calls, each from the incoming `filters`. */
    method HandlePriceRangeChange(lo: int, hi: int)
      modifies this
      ensures emitted == old(emitted) + [Updated(filters, PriceMin, Number(lo)), Updated(filters, PriceMax, Number(hi))]
      ensures minPrice == IntToString(lo) && maxPrice == IntToString(hi)
    {
      UpdateFilter(PriceMin, Number(lo));
      UpdateFilter(PriceMax, Number(hi));
      minPrice := IntToString(lo);
      maxPrice := IntToString(hi);
    }

    /** The year slider: two calls, each from the incoming `filters`. */
    method HandleYearRangeChange(lo: int, hi: int)
      modifies this
      ensures emitted == old(emitted) + [Updated(filters, YearBuiltMin, Number(lo)), Updated(filters, YearBuiltMax, Number(hi))]
      ensures minPrice == old(minPrice) && maxPrice == old(maxPrice)
    {
      UpdateFilter(YearBuiltMin, Number(lo));
      UpdateFilter(YearBuiltMax, Number(hi));
    }

    /** The search box: `e.target.value || undefined`. */
    method HandleSearchChange(value: string)
      modifies this
      ensures emitted == old(emitted) + [Updated(filters, Search, if value == [] then Undefined else Str(value))]
      ensures minPrice == old(minPrice) && maxPrice == old(maxPrice)
    {
      UpdateFilter(Search, if value != "" then Str(value) else Undefined);
    }

    /** The sort select offers price, date created and date updated. */
    method HandleSortByChange(kind: SortBy)
      requires kind in {Price, DateCreated, DateUpdated}
      modifies this
      ensures emitted == old(emitted) + [Updated(filters, SortByKey, Sort(kind))]
      ensures minPrice == old(minPrice) && maxPrice == old(maxPrice)
    {
      UpdateFilter(SortByKey, Sort(kind));
    }

    method HandleSortOrderChange(order: SortOrder)
      modifies this
      ensures emitted == old(emitted) + [Updated(filters, SortOrderKey, Order(order))]
      ensures minPrice == old(minPrice) && maxPrice == old(maxPrice)
    {
      UpdateFilter(SortOrderKey, Order(order));
    }
  }
}
