/**
 * `PropertiesApi.getProperties`: how the frontend turns its filter record,
 * page, page size and sort kind into the query parameters of
 * `GET /api/properties/filter`, and how the backend binds them.
 */
module PropertiesApi {
  import opened Wrappers
  import opened Text
  import opened Models
  import opened FrontendTypes
  import opened FilterDto
  import opened PropertiesController

  /** `PropertyApiFilters`: a parameter that is `None` is not sent. */
  datatype ApiParams = ApiParams(
    page: int,
    pageSize: int,
    name: Option<string>,
    minPrice: Option<int>,
    maxPrice: Option<int>,
    minYear: Option<int>,
    maxYear: Option<int>,
    sortBy: Option<string>,
    sortDirection: Option<string>)

  /** The backend field each sort kind is sent as. */
  function SortField(s: SortBy): string {
    match s
    case Price => "price"
    case DateCreated => "createdAt"
    case DateUpdated => "updatedAt"
    case Area => "area"
    case Bedrooms => "bedrooms"
  }

  /** `filters.sortOrder || default`: the explicit order when one is set,
      otherwise ascending for price and descending for every other kind. */
  function SortDirectionFor(s: SortBy, sortOrder: Value): string {
    if sortOrder.Order? then sortOrder.order.Text()
    else if s == Price then "asc"
    else "desc"
  }

  method GetProperties(filters: Filters, page: int, pageSize: int, sortBy: Option<SortBy>) returns (params: ApiParams)
    ensures params.page == page && params.pageSize == pageSize
    ensures params.name.Some? <==> Get(filters, Search).Str? && Get(filters, Search).s != []
    ensures params.name.Some? ==> Get(filters, Search) == Str(params.name.value)
    ensures params.minPrice.Some? <==> Get(filters, PriceMin).Number? && Get(filters, PriceMin).n > 0
    ensures params.minPrice.Some? ==> Get(filters, PriceMin) == Number(params.minPrice.value)
    ensures params.maxPrice.Some? <==> Truthy(Get(filters, PriceMax)) && Get(filters, PriceMax).Number? && Get(filters, PriceMax).n < 2000000
    ensures params.maxPrice.Some? ==> Get(filters, PriceMax) == Number(params.maxPrice.value)
    ensures params.minYear.Some? <==> Get(filters, YearBuiltMin).Number? && Get(filters, YearBuiltMin).n > 1800
    ensures params.minYear.Some? ==> Get(filters, YearBuiltMin) == Number(params.minYear.value)
    ensures params.maxYear.Some? <==> Truthy(Get(filters, YearBuiltMax)) && Get(filters, YearBuiltMax).Number? && Get(filters, YearBuiltMax).n < 2030
    ensures params.maxYear.Some? ==> Get(filters, YearBuiltMax) == Number(params.maxYear.value)
    ensures sortBy.None? ==> params.sortBy == Some("name") && params.sortDirection == Some("asc")
    ensures sortBy.Some? ==> params.sortBy == Some(SortField(sortBy.value))
    ensures sortBy.Some? ==> params.sortDirection == Some(SortDirectionFor(sortBy.value, Get(filters, SortOrderKey)))
  {
    params := ApiParams(page, pageSize, None, None, None, None, None, None, None);
    var search := Get(filters, Search);
    if search.Str? && Truthy(search) {
      params := params.(name := Some(search.s));
    }
    params := AddPriceParams(params, filters);
    params := AddYearParams(params, filters);
    params := AddSortParams(params, filters, sortBy);
  }

  method AddPriceParams(params: ApiParams, filters: Filters) returns (r: ApiParams)
    ensures r.(minPrice := params.minPrice, maxPrice := params.maxPrice) == params
    ensures r.minPrice.Some? <==> params.minPrice.Some? || (Get(filters, PriceMin).Number? && Get(filters, PriceMin).n > 0)
    ensures r.minPrice != params.minPrice ==> Get(filters, PriceMin) == Number(r.minPrice.value)
    ensures r.maxPrice.Some? <==> params.maxPrice.Some? || (Truthy(Get(filters, PriceMax)) && Get(filters, PriceMax).Number? && Get(filters, PriceMax).n < 2000000)
    ensures r.maxPrice != params.maxPrice ==> Get(filters, PriceMax) == Number(r.maxPrice.value)
  {
    r := params;
    var priceMin := Get(filters, PriceMin);
    if Truthy(priceMin) && priceMin.Number? && priceMin.n > 0 {
      r := r.(minPrice := Some(priceMin.n));
    }
    var priceMax := Get(filters, PriceMax);
    if Truthy(priceMax) && priceMax.Number? && priceMax.n < 2000000 {
      r := r.(maxPrice := Some(priceMax.n));
    }
  }

  method AddYearParams(params: ApiParams, filters: Filters) returns (r: ApiParams)
    ensures r.(minYear := params.minYear, maxYear := params.maxYear) == params
    ensures r.minYear.Some? <==> params.minYear.Some? || (Get(filters, YearBuiltMin).Number? && Get(filters, YearBuiltMin).n > 1800)
    ensures r.minYear != params.minYear ==> Get(filters, YearBuiltMin) == Number(r.minYear.value)
    ensures r.maxYear.Some? <==> params.maxYear.Some? || (Truthy(Get(filters, YearBuiltMax)) && Get(filters, YearBuiltMax).Number? && Get(filters, YearBuiltMax).n < 2030)
    ensures r.maxYear != params.maxYear ==> Get(filters, YearBuiltMax) == Number(r.maxYear.value)
  {
    r := params;
    var yearBuiltMin := Get(filters, YearBuiltMin);
    if Truthy(yearBuiltMin) && yearBuiltMin.Number? && yearBuiltMin.n > 1800 {
      r := r.(minYear := Some(yearBuiltMin.n));
    }
    var yearBuiltMax := Get(filters, YearBuiltMax);
    if Truthy(yearBuiltMax) && yearBuiltMax.Number? && yearBuiltMax.n < 2030 {
      r := r.(maxYear := Some(yearBuiltMax.n));
    }
  }

  /** The `switch` on the sort kind, or name ascending without one. */
  method AddSortParams(params: ApiParams, filters: Filters, sortBy: Option<SortBy>) returns (r: ApiParams)
    ensures r.(sortBy := params.sortBy, sortDirection := params.sortDirection) == params
    ensures sortBy.None? ==> r.sortBy == Some("name") && r.sortDirection == Some("asc")
    ensures sortBy.Some? ==> r.sortBy == Some(SortField(sortBy.value))
    ensures sortBy.Some? ==> r.sortDirection == Some(SortDirectionFor(sortBy.value, Get(filters, SortOrderKey)))
  {
    r := params;
    if sortBy.Some? {
      var sortOrder := Get(filters, SortOrderKey);
      match sortBy.value {
        case Price =>
          r := r.(sortBy := Some("price"));
          r := r.(sortDirection := Some(if sortOrder.Order? then sortOrder.order.Text() else "asc"));
        case DateCreated =>
          r := r.(sortBy := Some("createdAt"));
          r := r.(sortDirection := Some(if sortOrder.Order? then sortOrder.order.Text() else "desc"));
        case DateUpdated =>
          r := r.(sortBy := Some("updatedAt"));
          r := r.(sortDirection := Some(if sortOrder.Order? then sortOrder.order.Text() else "desc"));
        case Area =>
          r := r.(sortBy := Some("area"));
          r := r.(sortDirection := Some(if sortOrder.Order? then sortOrder.order.Text() else "desc"));
        case Bedrooms =>
          r := r.(sortBy := Some("bedrooms"));
          r := r.(sortDirection := Some(if sortOrder.Order? then sortOrder.order.Text() else "desc"));
      }
    } else {
      r := r.(sortBy := Some("name"));
      r := r.(sortDirection := Some("asc"));
    }
  }

  /** Model binding of the query string: every sent parameter sets the
      request property of the same name, every other property keeps its
      default. */
  function Bind(p: ApiParams): (f: PropertyFilterDto)
    ensures f.page == p.page && f.pageSize == p.pageSize
    ensures f.sortBy == p.sortBy.GetOr(DefaultFilter.sortBy)
    ensures f.sortDirection == p.sortDirection.GetOr(DefaultFilter.sortDirection)
  {
    DefaultFilter.(
      name := p.name, minPrice := p.minPrice, maxPrice := p.maxPrice,
      minYear := p.minYear, maxYear := p.maxYear,
      page := p.page, pageSize := p.pageSize,
      sortBy := p.sortBy.GetOr(DefaultFilter.sortBy),
      sortDirection := p.sortDirection.GetOr(DefaultFilter.sortDirection))
  }

  // ---------------------------------------------------------------------
  // What the backend makes of the parameters.

  /** Of the five sort fields the frontend sends, the backend accepts only
      "price". */
  lemma SentSortFieldAccepted(s: SortBy)
    ensures SortByAccepted(SortField(s)) <==> s == Price
  {
    match s {
      case Price => PriceAccepted();
      case Area => AreaRefused();
      case _ => LongSortFieldRefused(SortField(s));
    }
  }

  lemma PriceAccepted()
    ensures SortByAccepted("price")
  {
    ToLowerOfLower("price");
  }

  lemma AreaRefused()
    ensures !SortByAccepted("area")
  {
    ToLowerOfLower("area");
    SortByAcceptedExactly("area");
  }

  /** Every direction the frontend sends is accepted. */
  lemma SentSortDirectionAccepted(s: SortBy, sortOrder: Value)
    ensures SortDirectionAccepted(SortDirectionFor(s, sortOrder))
  {
    ToLowerOfLower(SortDirectionFor(s, sortOrder));
  }

  /** Without a sort kind the frontend asks for name ascending, which the
      backend accepts. */
  lemma UnsortedRequestAccepted()
    ensures SortByAccepted("name") && SortDirectionAccepted("asc")
  {
    ToLowerOfLower("name");
    ToLowerOfLower("asc");
  }

  /** A request the frontend sends with any sort kind but price is answered
      400 with the sort-field message, whatever the store holds. */
  lemma SentSortRefused(store: Store, p: ApiParams, s: SortBy, failure: Option<string>)
    requires p.sortBy == Some(SortField(s)) && s != Price
    requires WithinDeclaredBounds(Bind(p))
    ensures Answer(store, Bind(p), failure).BadRequest?
    ensures SortByMessage in Answer(store, Bind(p), failure).errors
  {
    SentSortFieldAccepted(s);
    ErrorsExactly(Bind(p));
  }
}
