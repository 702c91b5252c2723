/**
 * `useProperties`: the hook that fetches a page of properties and keeps it,
 * with the loading flag, the error, and the arguments of the last fetch that
 * succeeded.
 *
 * The awaited call is a parameter: the `Outcome` the service's promise
 * settles with.
 */
module UseProperties {
  import opened Wrappers
  import opened FrontendTypes
  import opened PropertiesController
  import opened PropertyService

  /** The message stored for a thrown value that is not an `Error`. */
  const UnknownErrorMessage := "An error occurred"

  /** `error instanceof Error ? error.message : 'An error occurred'`. */
  function ErrorMessage(t: Thrown): (m: string)
    ensures t.ErrorInstance? ==> m == t.message
    ensures t.OtherValue? ==> m == UnknownErrorMessage
  {
    if t.ErrorInstance? then t.message else UnknownErrorMessage
  }

  class PropertiesState {
    var properties: seq<PropertyWithImages>
    var loading: bool
    var error: Option<string>
    var total: int
    var page: int
    var pageSize: int
    var totalPages: int
    var currentFilters: Filters
    var currentPage: int
    var currentPageSize: int
    var currentSortBy: Option<SortBy>

    /** The state before the first fetch: nothing loaded, the initial page
        and page size, and the initial arguments remembered. */
    constructor(initialFilters: Filters, initialPage: int, initialPageSize: int)
      ensures properties == [] && !loading && error.None?
      ensures total == 0 && totalPages == 0
      ensures page == initialPage && pageSize == initialPageSize
      ensures currentFilters == initialFilters && currentPage == initialPage
      ensures currentPageSize == initialPageSize && currentSortBy.None?
    {
      properties := [];
      loading := false;
      error := None;
      total := 0;
      page := initialPage;
      pageSize := initialPageSize;
      totalPages := 0;
      currentFilters := initialFilters;
      currentPage := initialPage;
      currentPageSize := initialPageSize;
      currentSortBy := None;
    }

    /** `setState(prev => ({ ...prev, loading: true, error: null }))`. */
    method StartFetch()
      modifies this
      ensures loading && error.None?
      ensures properties == old(properties) && total == old(total) && page == old(page)
      ensures pageSize == old(pageSize) && totalPages == old(totalPages)
      ensures currentFilters == old(currentFilters) && currentPage == old(currentPage)
      ensures currentPageSize == old(currentPageSize) && currentSortBy == old(currentSortBy)
    {
      loading := true;
      error := None;
    }

    /** `fetchProperties(filters, page, pageSize, sortBy)` once the service
        call settles with `outcome`. A result replaces the page and is
        remembered with its arguments; a rejection stores its message and
        keeps the previous page and arguments. Either way loading ends. */
    method FetchProperties(filters: Filters, page': int, pageSize': int, sortBy: Option<SortBy>, outcome: Outcome<FilterResult>)
      modifies this
      ensures !loading
      ensures outcome.Success? ==>
        && error.None?
        && properties == outcome.value.properties && total == outcome.value.totalCount
        && page == outcome.value.page && pageSize == outcome.value.pageSize
        && totalPages == outcome.value.totalPages
        && currentFilters == filters && currentPage == page'
        && currentPageSize == pageSize' && currentSortBy == sortBy
      ensures outcome.Failure? ==>
        && error == Some(ErrorMessage(outcome.thrown))
        && properties == old(properties) && total == old(total) && page == old(page)
        && pageSize == old(pageSize) && totalPages == old(totalPages)
        && currentFilters == old(currentFilters) && currentPage == old(currentPage)
        && currentPageSize == old(currentPageSize) && currentSortBy == old(currentSortBy)
    {
      StartFetch();
      match outcome {
        case Success(response) =>
          currentFilters := filters;
          currentPage := page';
          currentPageSize := pageSize';
          currentSortBy := sortBy;
          properties := response.properties;
          total := response.totalCount;
          page := response.page;
          pageSize := response.pageSize;
          totalPages := response.totalPages;
          loading := false;
        case Failure(thrown) =>
          error := Some(ErrorMessage(thrown));
          loading := false;
      }
    }

    /** `refetch`: the last remembered arguments again. */
    method Refetch(outcome: Outcome<FilterResult>)
      modifies this
      ensures !loading
      ensures outcome.Success? ==>
        && error.None?
        && properties == outcome.value.properties && total == outcome.value.totalCount
        && page == outcome.value.page && pageSize == outcome.value.pageSize
        && totalPages == outcome.value.totalPages
        && currentFilters == old(currentFilters) && currentPage == old(currentPage)
        && currentPageSize == old(currentPageSize) && currentSortBy == old(currentSortBy)
      ensures outcome.Failure? ==>
        && error == Some(ErrorMessage(outcome.thrown))
        && properties == old(properties) && total == old(total) && page == old(page)
        && pageSize == old(pageSize) && totalPages == old(totalPages)
        && currentFilters == old(currentFilters) && currentPage == old(currentPage)
        && currentPageSize == old(currentPageSize) && currentSortBy == old(currentSortBy)
    {
      FetchProperties(currentFilters, currentPage, currentPageSize, currentSortBy, outcome);
    }

    /** `clearError`. */
    method ClearError()
      modifies this
      ensures error.None? && loading == old(loading)
      ensures properties == old(properties) && total == old(total) && page == old(page)
      ensures pageSize == old(pageSize) && totalPages == old(totalPages)
      ensures currentFilters == old(currentFilters) && currentPage == old(currentPage)
      ensures currentPageSize == old(currentPageSize) && currentSortBy == old(currentSortBy)
    {
      error := None;
    }

    /** A fetch through the service never stores an error: the service
        settles every call with a result, the empty first page on failure. */
    method FetchThroughService(filters: Filters, page': int, pageSize': int, sortBy: Option<SortBy>, api: Outcome<FilterResult>)
      modifies this
      ensures !loading && error.None?
      ensures properties == GetProperties(api).properties && total == GetProperties(api).totalCount
      ensures api.Failure? ==> properties == [] && total == 0 && page == 1 && pageSize == 12 && totalPages == 0
    {
      FetchProperties(filters, page', pageSize', sortBy, Success(GetProperties(api)));
    }
  }
}
