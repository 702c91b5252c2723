/**
 * `PropertyFiltersComponent`: the full filter panel. Like the compact one it
 * reports each change through `onFiltersChange` with a record built from the
 * incoming `filters` prop (the field `emitted`, oldest first), and it keeps
 * the typed location and the two slider ranges as local state.
 */
module PropertyFiltersComponent {
  import opened FrontendTypes

  const PriceFloor := 0
  const PriceCeiling := 2000000
  const YearFloor := 1950
  const YearCeiling := 2024

  /** The eight values `getActiveFiltersCount` tests. */
  function CountedValues(f: Filters): seq<Value> {
    [Get(f, Search), Get(f, PriceMin), Get(f, PriceMax), Get(f, YearBuiltMin), Get(f, YearBuiltMax),
     Get(f, BedroomsKey), Get(f, BathroomsKey), Get(f, Location)]
  }

  /** `getActiveFiltersCount`: how many of the eight are truthy. */
  function ActiveFiltersCount(f: Filters): (n: nat)
    ensures n <= 8
  {
    CountTruthy(CountedValues(f))
  }

  /** No filter is active exactly when all eight are falsy. The sort fields
      are not counted at all. */
  lemma NoActiveFilters(f: Filters)
    ensures ActiveFiltersCount(f) == 0 <==>
      && !Truthy(Get(f, Search))
      && !Truthy(Get(f, PriceMin)) && !Truthy(Get(f, PriceMax))
      && !Truthy(Get(f, YearBuiltMin)) && !Truthy(Get(f, YearBuiltMax))
      && !Truthy(Get(f, BedroomsKey)) && !Truthy(Get(f, BathroomsKey))
      && !Truthy(Get(f, Location))
  {
    var vs := CountedValues(f);
    CountTruthyZero(vs);
    assert vs[0] == Get(f, Search) && vs[1] == Get(f, PriceMin) && vs[2] == Get(f, PriceMax);
    assert vs[3] == Get(f, YearBuiltMin) && vs[4] == Get(f, YearBuiltMax);
    assert vs[5] == Get(f, BedroomsKey) && vs[6] == Get(f, BathroomsKey) && vs[7] == Get(f, Location);
  }

  /** A lower bound is kept only above the floor: at the floor it means no
      bound. */
  function LowerBound(v: int, floor: int): (r: Value)
    ensures r.Number? <==> v > floor
    ensures r.Number? ==> r.n == v
    ensures r.Undefined? <==> v <= floor
  {
    if v > floor then Number(v) else Undefined
  }

  /** An upper bound is kept only below the ceiling. */
  function UpperBound(v: int, ceiling: int): (r: Value)
    ensures r.Number? <==> v < ceiling
    ensures r.Number? ==> r.n == v
    ensures r.Undefined? <==> v >= ceiling
  {
    if v < ceiling then Number(v) else Undefined
  }

  /** A lower bound above a non-negative floor is truthy, so the next
      request carries it. */
  lemma LowerBoundTruthy(v: int, floor: int)
    requires floor >= 0
    ensures Truthy(LowerBound(v, floor)) <==> v > floor
  {
  }

  /** `Number(text) || d`: the entered number unless it is `0` or `NaN`. */
  function Entered(entered: Value, d: int): (n: int)
    requires entered.Number? || entered.NotANumber?
    ensures entered.Number? && entered.n != 0 ==> n == entered.n
    ensures entered.NotANumber? || entered == Number(0) ==> n == d
  {
    NumberOr(entered, d)
  }

  /** A box left empty or unreadable clears its bound: it falls back to the
      slider's end, which is no bound. */
  lemma UnreadableEntryClearsBound(entered: Value)
    requires entered.NotANumber? || entered == Number(0)
    ensures LowerBound(Entered(entered, PriceFloor), PriceFloor) == Undefined
    ensures UpperBound(Entered(entered, PriceCeiling), PriceCeiling) == Undefined
    ensures LowerBound(Entered(entered, YearFloor), YearFloor) == Undefined
    ensures UpperBound(Entered(entered, YearCeiling), YearCeiling) == Undefined
  {
  }

  class FiltersPanel {
    /** The `filters` prop, fixed for this rendering. */
    const filters: Filters
    var isExpanded: bool
    var localLocation: string
    var priceRange: (int, int)
    var yearRange: (int, int)
    /** The records passed to `onFiltersChange`, oldest first. */
    var emitted: seq<Filters>

    constructor(filters: Filters)
      ensures this.filters == filters && emitted == [] && isExpanded
      ensures localLocation == (if Get(filters, Location).Str? then Get(filters, Location).s else [])
      ensures priceRange == (NumberOr(Get(filters, PriceMin), PriceFloor), NumberOr(Get(filters, PriceMax), PriceCeiling))
      ensures yearRange == (NumberOr(Get(filters, YearBuiltMin), YearFloor), NumberOr(Get(filters, YearBuiltMax), YearCeiling))
    {
      this.filters := filters;
      isExpanded := true;
      localLocation := if Get(filters, Location).Str? then Get(filters, Location).s else "";
      priceRange := (NumberOr(Get(filters, PriceMin), PriceFloor), NumberOr(Get(filters, PriceMax), PriceCeiling));
      yearRange := (NumberOr(Get(filters, YearBuiltMin), YearFloor), NumberOr(Get(filters, YearBuiltMax), YearCeiling));
      emitted := [];
    }

    /** `updateFilter(key, value)`: `onFiltersChange({ ...filters, [key]: value })`. */
    method UpdateFilter(k: FilterKey, v: Value)
      modifies this
      ensures emitted == old(emitted) + [Updated(filters, k, v)]
      ensures localLocation == old(localLocation) && priceRange == old(priceRange) && yearRange == old(yearRange)
      ensures isExpanded == old(isExpanded)
    {
      emitted := emitted + [filters[k := v]];
    }

    /** Typing in the location box changes only the local text. */
    method HandleLocationInput(value: string)
      modifies this
      ensures localLocation == value && emitted == old(emitted)
      ensures priceRange == old(priceRange) && yearRange == old(yearRange) && isExpanded == old(isExpanded)
    {
      localLocation := value;
    }

    /** The search button: the typed location becomes a filter. */
    method HandleLocationSearch()
      modifies this
      ensures emitted == old(emitted) + [Updated(filters, Location, Str(localLocation))]
      ensures localLocation == old(localLocation) && priceRange == old(priceRange) && yearRange == old(yearRange)
      ensures isExpanded == old(isExpanded)
    {
      UpdateFilter(Location, Str(localLocation));
    }

    /** A key press in the location box: only Enter searches. */
    method HandleLocationKeyDown(key: string)
      modifies this
      ensures key == "Enter" ==> emitted == old(emitted) + [Updated(filters, Location, Str(localLocation))]
      ensures key != "Enter" ==> emitted == old(emitted)
      ensures localLocation == old(localLocation) && priceRange == old(priceRange) && yearRange == old(yearRange)
      ensures isExpanded == old(isExpanded)
    {
      if key == "Enter" {
        HandleLocationSearch();
      }
    }

    /** The price slider: two calls, each from the incoming `filters`, so the
        second record keeps the old lower bound. */
    method HandlePriceRangeChange(min: int, max: int)
      modifies this
      ensures priceRange == (min, max)
      ensures emitted == old(emitted) + [
        Updated(filters, PriceMin, LowerBound(min, PriceFloor)),
        Updated(filters, PriceMax, UpperBound(max, PriceCeiling))]
      ensures localLocation == old(localLocation) && yearRange == old(yearRange) && isExpanded == old(isExpanded)
    {
      priceRange := (min, max);
      UpdateFilter(PriceMin, if min > PriceFloor then Number(min) else Undefined);
      UpdateFilter(PriceMax, if max < PriceCeiling then Number(max) else Undefined);
    }

    /** The year slider, likewise. */
    method HandleYearRangeChange(min: int, max: int)
      modifies this
      ensures yearRange == (min, max)
      ensures emitted == old(emitted) + [
        Updated(filters, YearBuiltMin, LowerBound(min, YearFloor)),
        Updated(filters, YearBuiltMax, UpperBound(max, YearCeiling))]
      ensures localLocation == old(localLocation) && priceRange == old(priceRange) && isExpanded == old(isExpanded)
    {
      yearRange := (min, max);
      UpdateFilter(YearBuiltMin, if min > YearFloor then Number(min) else Undefined);
      UpdateFilter(YearBuiltMax, if max < YearCeiling then Number(max) else Undefined);
    }

    /** The min price box; `entered` is `Number(e.target.value)`. */
    method HandleMinPriceInput(entered: Value)
      requires entered.Number? || entered.NotANumber?
      modifies this
      ensures priceRange == (Entered(entered, PriceFloor), old(priceRange).1)
      ensures emitted == old(emitted) + [Updated(filters, PriceMin, LowerBound(Entered(entered, PriceFloor), PriceFloor))]
      ensures localLocation == old(localLocation) && yearRange == old(yearRange) && isExpanded == old(isExpanded)
    {
      var value := NumberOr(entered, PriceFloor);
      priceRange := (value, priceRange.1);
      UpdateFilter(PriceMin, if value > PriceFloor then Number(value) else Undefined);
    }

    /** The max price box. */
    method HandleMaxPriceInput(entered: Value)
      requires entered.Number? || entered.NotANumber?
      modifies this
      ensures priceRange == (old(priceRange).0, Entered(entered, PriceCeiling))
      ensures emitted == old(emitted) + [Updated(filters, PriceMax, UpperBound(Entered(entered, PriceCeiling), PriceCeiling))]
      ensures localLocation == old(localLocation) && yearRange == old(yearRange) && isExpanded == old(isExpanded)
    {
      var value := NumberOr(entered, PriceCeiling);
      priceRange := (priceRange.0, value);
      UpdateFilter(PriceMax, if value < PriceCeiling then Number(value) else Undefined);
    }

    /** The min year box. */
    method HandleMinYearInput(entered: Value)
      requires entered.Number? || entered.NotANumber?
      modifies this
      ensures yearRange == (Entered(entered, YearFloor), old(yearRange).1)
      ensures emitted == old(emitted) + [Updated(filters, YearBuiltMin, LowerBound(Entered(entered, YearFloor), YearFloor))]
      ensures localLocation == old(localLocation) && priceRange == old(priceRange) && isExpanded == old(isExpanded)
    {
      var value := NumberOr(entered, YearFloor);
      yearRange := (value, yearRange.1);
      UpdateFilter(YearBuiltMin, if value > YearFloor then Number(value) else Undefined);
    }

    /** The max year box. */
    method HandleMaxYearInput(entered: Value)
      requires entered.Number? || entered.NotANumber?
      modifies this
      ensures yearRange == (old(yearRange).0, Entered(entered, YearCeiling))
      ensures emitted == old(emitted) + [Updated(filters, YearBuiltMax, UpperBound(Entered(entered, YearCeiling), YearCeiling))]
      ensures localLocation == old(localLocation) && priceRange == old(priceRange) && isExpanded == old(isExpanded)
    {
      var value := NumberOr(entered, YearCeiling);
      yearRange := (yearRange.0, value);
      UpdateFilter(YearBuiltMax, if value < YearCeiling then Number(value) else Undefined);
    }

    /** The search box: `e.target.value || undefined`. */
    method HandleSearchChange(value: string)
      modifies this
      ensures emitted == old(emitted) + [Updated(filters, Search, if value == [] then Undefined else Str(value))]
      ensures localLocation == old(localLocation) && priceRange == old(priceRange) && yearRange == old(yearRange)
      ensures isExpanded == old(isExpanded)
    {
      UpdateFilter(Search, if value != "" then Str(value) else Undefined);
    }

    /** The sort select offers all five kinds. */
    method HandleSortByChange(kind: SortBy)
      modifies this
      ensures emitted == old(emitted) + [Updated(filters, SortByKey, Sort(kind))]
      ensures localLocation == old(localLocation) && priceRange == old(priceRange) && yearRange == old(yearRange)
      ensures isExpanded == old(isExpanded)
    {
      UpdateFilter(SortByKey, Sort(kind));
    }

    method HandleSortOrderChange(order: SortOrder)
      modifies this
      ensures emitted == old(emitted) + [Updated(filters, SortOrderKey, Order(order))]
      ensures localLocation == old(localLocation) && priceRange == old(priceRange) && yearRange == old(yearRange)
      ensures isExpanded == old(isExpanded)
    {
      UpdateFilter(SortOrderKey, Order(order));
    }

    /** The bedrooms or bathrooms select: `'any'` is no bound, a count is
        that number. Bedrooms offers 1 to 5, bathrooms 1 to 4. */
    method HandleRoomsChange(k: FilterKey, choice: string)
      requires k == BedroomsKey || k == BathroomsKey
      requires choice in {"any", "1", "2", "3", "4", "5"}
      requires k == BathroomsKey ==> choice != "5"
      modifies this
      ensures emitted == old(emitted) + [Updated(filters, k, if choice == "any" then Undefined else ParsedNumber(choice))]
      ensures localLocation == old(localLocation) && priceRange == old(priceRange) && yearRange == old(yearRange)
      ensures isExpanded == old(isExpanded)
    {
      UpdateFilter(k, if choice == "any" then Undefined else ParsedNumber(choice));
    }

    /** The toggle button shows or hides the ranges and room selects. */
    method ToggleExpanded()
      modifies this
      ensures isExpanded == !old(isExpanded) && emitted == old(emitted)
      ensures localLocation == old(localLocation) && priceRange == old(priceRange) && yearRange == old(yearRange)
    {
      isExpanded := !isExpanded;
    }
  }
}
