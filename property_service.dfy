/**
 * `PropertyService`: the frontend's service over the API client. The
 * outcome of the HTTP call is a parameter: the body the backend answered
 * with, or what the client threw.
 */
module PropertyService {
  import opened Wrappers
  import opened Models
  import opened FilterDto
  import opened PropertyRepository
  import opened PropertiesController
  import opened FrontendTypes
  import opened PropertiesApi

  /** What a rejected promise carries: an `Error` with its message, or any
      other thrown value. The API client throws a plain `ApiError` object,
      which is not an `Error`. */
  datatype Thrown = ErrorInstance(message: string) | OtherValue

  /** A resolved promise with its value, or a rejected one. */
  datatype Outcome<T> = Success(value: T) | Failure(thrown: Thrown)

  /** The empty first page `getProperties` answers with when the call fails. */
  const EmptyResult := FilterResult([], 0, 1, 12, 0, false, false)

  /** `apiClient.get` on the backend's answer: a 200 resolves with its body;
      any other status makes the client throw its `ApiError` object. */
  function ClientOutcome(response: Response): (r: Outcome<FilterResult>)
    ensures r.Success? <==> response.Ok?
    ensures r.Success? ==> r.value == response.result
    ensures r.Failure? ==> r.thrown == OtherValue
  {
    if response.Ok? then Success(response.result) else Failure(OtherValue)
  }

  /** `getProperties`: the API's answer unchanged, or, on any failure, the
      empty first page whatever was asked for. */
  function GetProperties(outcome: Outcome<FilterResult>): (r: FilterResult)
    ensures outcome.Success? ==> r == outcome.value
    ensures outcome.Failure? ==> r.properties == [] && r.totalCount == 0 && r.totalPages == 0
    ensures outcome.Failure? ==> r.page == 1 && r.pageSize == 12 && !r.hasNextPage && !r.hasPreviousPage
  {
    match outcome
    case Success(value) => value
    case Failure(_) => EmptyResult
  }

  /** A failure cannot be told apart from a store with no matches: both give
      an empty page with no pages at all. */
  lemma FailureLooksEmpty(store: Store, f: PropertyFilterDto, thrown: Thrown)
    requires f.page == 1 && f.pageSize == 12
    requires Selected(store.properties, store.owners, f) == []
    ensures GetProperties(Failure(thrown)) == Filtered(store, f)
  {
    FilteredFaithful(store, f);
  }

  /** `getPropertyById`: the property, or an error naming the id whatever
      went wrong. */
  function GetPropertyById<P>(id: string, outcome: Outcome<P>): (r: Outcome<P>)
    ensures outcome.Success? ==> r == outcome
    ensures outcome.Failure? ==> r == Failure(ErrorInstance("Property with id " + id + " not found"))
  {
    match outcome
    case Success(_) => outcome
    case Failure(_) => Failure(ErrorInstance("Property with id " + id + " not found"))
  }

  /** The error of `getPropertyById` hides the cause: two failures give the
      same error, and a different id gives a different message. */
  lemma PropertyByIdHidesCause<P>(id: string, other: string, a: Thrown, b: Thrown)
    ensures GetPropertyById<P>(id, Failure(a)) == GetPropertyById<P>(id, Failure(b))
    ensures id != other ==> GetPropertyById<P>(id, Failure(a)) != GetPropertyById<P>(other, Failure(a))
  {
    if id != other {
      var prefix := "Property with id ";
      var suffix := " not found";
      var m1 := prefix + id + suffix;
      var m2 := prefix + other + suffix;
      if m1 == m2 {
        assert |id| == |other|;
        forall i | 0 <= i < |id| ensures id[i] == other[i] {
          assert m1[|prefix| + i] == id[i];
          assert m2[|prefix| + i] == other[i];
        }
        assert false;
      }
    }
  }

  /** From the frontend to the backend and back: a list request sorted by
      anything but price is refused by the backend, the client throws, and
      the service answers with the empty first page, whatever the store
      holds. */
  lemma SortedRequestShowsEmptyPage(store: Store, p: ApiParams, s: SortBy, failure: Option<string>)
    requires p.sortBy == Some(SortField(s)) && s != Price
    requires WithinDeclaredBounds(Bind(p))
    ensures GetProperties(ClientOutcome(Answer(store, Bind(p), failure))) == EmptyResult
  {
    SentSortRefused(store, p, s, failure);
  }
}
