/**
 * `PropertiesController.GetFiltered`: the `GET api/properties/filter`
 * action. It refuses a request that fails `IsValid`, asks the repository for
 * one page, dresses every property with its enabled images, its traces and
 * its owner, and adds the pagination metadata.
 *
 * A failing store call is the parameter `failure`: `Some(message)` stands for
 * an exception with that message inside the action's `try` block.
 */
module PropertiesController {
  import opened Wrappers
  import opened Models
  import opened FilterDto
  import opened PropertyRepository

  /** `PropertyWithImagesDto`: the property's own fields, copied, plus what
      the three lookups return. */
  datatype PropertyWithImages = PropertyWithImages(
    id: string,
    name: string,
    address: string,
    price: int,
    codeInternal: string,
    year: int,
    ownerId: string,
    createdAt: int,
    updatedAt: int,
    images: seq<PropertyImage>,
    propertyTraces: seq<PropertyTrace>,
    owner: Option<Owner>)
  {
    /** The property the DTO was made from. */
    function Base(): Property {
      Property(id, name, address, price, codeInternal, year, ownerId, createdAt, updatedAt)
    }
  }

  /** `PropertyFilterResultDto`. */
  datatype FilterResult = FilterResult(
    properties: seq<PropertyWithImages>,
    totalCount: int,
    page: int,
    pageSize: int,
    totalPages: int,
    hasNextPage: bool,
    hasPreviousPage: bool)

  /** What the action answers: the framework's automatic 400 for a request
      outside the declared ranges, the 400 carrying `IsValid`'s errors, the
      200 with the page, or the 500 of the `catch` block. */
  datatype Response =
    | ValidationProblem
    | BadRequest(errors: seq<string>)
    | Ok(result: FilterResult)
    | ServerError(message: string, error: string)

  const FilterErrorMessage := "An error occurred while filtering properties"

  // ---------------------------------------------------------------------
  // The per-property lookups.

  /** `PropertyImageRepository.GetByPropertyIdAsync`: the enabled images of
      the property, in store order. */
  function EnabledImagesOf(images: seq<PropertyImage>, propertyId: string): (r: seq<PropertyImage>)
    ensures forall i :: i in r <==> i in images && i.propertyId == propertyId && i.enabled
  {
    if images == [] then []
    else
      (if images[0].propertyId == propertyId && images[0].enabled then [images[0]] else [])
      + EnabledImagesOf(images[1..], propertyId)
  }

  /** `PropertyTraceRepository.GetByPropertyIdAsync`: the traces of the
      property, in store order. */
  function TracesOf(traces: seq<PropertyTrace>, propertyId: string): (r: seq<PropertyTrace>)
    ensures forall t :: t in r <==> t in traces && t.propertyId == propertyId
  {
    if traces == [] then []
    else
      (if traces[0].propertyId == propertyId then [traces[0]] else [])
      + TracesOf(traces[1..], propertyId)
  }

  /** `OwnerRepository.GetByIdAsync`: the first owner with that id, or null. */
  function OwnerById(owners: seq<Owner>, id: string): (r: Option<Owner>)
    ensures r.None? <==> forall o :: o in owners ==> o.id != id
    ensures r.Some? ==> r.value in owners && r.value.id == id
  {
    if owners == [] then None
    else if owners[0].id == id then Some(owners[0])
    else OwnerById(owners[1..], id)
  }

  /** The DTO the loop body builds for one property. */
  function ToDto(store: Store, p: Property): PropertyWithImages {
    PropertyWithImages(
      p.id, p.name, p.address, p.price, p.codeInternal, p.year, p.ownerId, p.createdAt, p.updatedAt,
      EnabledImagesOf(store.images, p.id),
      TracesOf(store.traces, p.id),
      OwnerById(store.owners, p.ownerId))
  }

  /** A DTO keeps the property's own fields, holds exactly its enabled
      images and its traces, and has no owner exactly when no stored owner
      has the property's owner id. */
  lemma ToDtoFaithful(store: Store, p: Property)
    ensures ToDto(store, p).Base() == p
    ensures forall i :: i in ToDto(store, p).images <==> i in store.images && i.propertyId == p.id && i.enabled
    ensures forall t :: t in ToDto(store, p).propertyTraces <==> t in store.traces && t.propertyId == p.id
    ensures ToDto(store, p).owner.None? <==> forall o :: o in store.owners ==> o.id != p.ownerId
    ensures ToDto(store, p).owner.Some? ==> ToDto(store, p).owner.value in store.owners && ToDto(store, p).owner.value.id == p.ownerId
  {
  }

  /** One DTO per property, in the same order. */
  function DtosOf(store: Store, ps: seq<Property>): (r: seq<PropertyWithImages>)
    ensures |r| == |ps|
  {
    if ps == [] then [] else DtosOf(store, ps[..|ps| - 1]) + [ToDto(store, ps[|ps| - 1])]
  }

  lemma {:induction false} DtosOfAt(store: Store, ps: seq<Property>)
    ensures forall k :: 0 <= k < |ps| ==> DtosOf(store, ps)[k] == ToDto(store, ps[k])
  {
    if ps != [] {
      DtosOfAt(store, ps[..|ps| - 1]);
    }
  }

  // ---------------------------------------------------------------------
  // Pagination metadata.

  /** `(int)Math.Ceiling((double)totalCount / pageSize)`, as integer ceiling
      division: the fewest pages of pageSize that hold totalCount items. */
  function TotalPages(totalCount: nat, pageSize: int): (n: nat)
    requires pageSize >= 1
    ensures n * pageSize >= totalCount
    ensures n == 0 || (n - 1) * pageSize < totalCount
  {
    (totalCount + pageSize - 1) / pageSize
  }

  lemma MulMonotone(a: int, b: int, s: int)
    requires a <= b && s >= 0
    ensures a * s <= b * s
  {
  }

  /** There are no pages exactly when there are no matches. */
  lemma TotalPagesZero(totalCount: nat, pageSize: int)
    requires pageSize >= 1
    ensures TotalPages(totalCount, pageSize) == 0 <==> totalCount == 0
  {
  }

  /** `HasNextPage` says that matches remain beyond the requested page. */
  lemma HasNextPageMeaning(page: int, pageSize: int, totalCount: nat)
    requires page >= 1 && pageSize >= 1
    ensures page < TotalPages(totalCount, pageSize) <==> page * pageSize < totalCount
  {
    var n := TotalPages(totalCount, pageSize);
    if page < n {
      MulMonotone(page, n - 1, pageSize);
    }
    if page * pageSize < totalCount && page >= n {
      MulMonotone(n, page, pageSize);
    }
  }

  /** The result record: the DTOs, the count, the request's page and size,
      and the derived metadata. */
  function Result(dtos: seq<PropertyWithImages>, totalCount: nat, f: PropertyFilterDto): FilterResult
    requires f.pageSize >= 1
  {
    var totalPages := TotalPages(totalCount, f.pageSize);
    FilterResult(dtos, totalCount, f.page, f.pageSize, totalPages, f.page < totalPages, f.page > 1)
  }

  /** The answer to an accepted request over a store that does not fail. */
  function Filtered(store: Store, f: PropertyFilterDto): FilterResult
    requires f.page >= 1 && f.pageSize >= 1
  {
    Result(DtosOf(store, PageOf(store, f)), |Selected(store.properties, store.owners, f)|, f)
  }

  /** What the action answers, in the order it decides: the declared
      ranges, then `IsValid`, then the store calls. */
  function Answer(store: Store, filter: PropertyFilterDto, failure: Option<string>): Response {
    if !WithinDeclaredBounds(filter) then ValidationProblem
    else if !Valid(filter) then BadRequest(ValidationErrors(filter))
    else if failure.Some? then ServerError(FilterErrorMessage, failure.value)
    else Ok(Filtered(store, filter))
  }

  // ---------------------------------------------------------------------
  // The action.

  method GetFiltered(store: Store, filter: PropertyFilterDto, failure: Option<string>) returns (response: Response)
    ensures response == Answer(store, filter, failure)
  {
    if !WithinDeclaredBounds(filter) {
      // Model binding of an [ApiController] answers 400 before the action runs.
      return ValidationProblem;
    }
    var valid, errors := IsValid(filter);
    if !valid {
      return BadRequest(errors);
    }
    if failure.Some? {
      return ServerError(FilterErrorMessage, failure.value);
    }

    var properties, totalCount, _ := GetFilteredAsync(store, filter);
    var propertyDtos: seq<PropertyWithImages> := [];
    for i := 0 to |properties|
      invariant propertyDtos == DtosOf(store, properties[..i])
    {
      var images := EnabledImagesOf(store.images, properties[i].id);
      var propertyTraces := TracesOf(store.traces, properties[i].id);
      var owner := OwnerById(store.owners, properties[i].ownerId);
      var property := properties[i];
      var propertyDto := PropertyWithImages(
        property.id, property.name, property.address, property.price, property.codeInternal,
        property.year, property.ownerId, property.createdAt, property.updatedAt,
        images, propertyTraces, owner);
      assert properties[..i + 1][..i] == properties[..i];
      propertyDtos := propertyDtos + [propertyDto];
    }
    assert properties[..|properties|] == properties;

    var totalPages := TotalPages(totalCount, filter.pageSize);
    var result := FilterResult(
      propertyDtos, totalCount, filter.page, filter.pageSize, totalPages,
      filter.page < totalPages, filter.page > 1);
    return Ok(result);
  }

  // ---------------------------------------------------------------------
  // What an accepted answer promises.

  /** The answer echoes the request's page and size, reports every match in
      its count, carries one DTO per property of the page in the page's
      order, and its flags say whether pages remain on either side. */
  lemma FilteredFaithful(store: Store, f: PropertyFilterDto)
    requires f.page >= 1 && f.pageSize >= 1
    ensures Filtered(store, f).page == f.page && Filtered(store, f).pageSize == f.pageSize
    ensures Filtered(store, f).totalCount == |Selected(store.properties, store.owners, f)|
    ensures |Filtered(store, f).properties| == |PageOf(store, f)|
    ensures forall k :: 0 <= k < |PageOf(store, f)| ==> Filtered(store, f).properties[k] == ToDto(store, PageOf(store, f)[k])
    ensures Filtered(store, f).hasNextPage <==> f.page * f.pageSize < Filtered(store, f).totalCount
    ensures Filtered(store, f).hasPreviousPage <==> f.page > 1
    ensures Filtered(store, f).totalPages == 0 <==> Filtered(store, f).totalCount == 0
  {
    var count := |Selected(store.properties, store.owners, f)|;
    DtosOfAt(store, PageOf(store, f));
    HasNextPageMeaning(f.page, f.pageSize, count);
    TotalPagesZero(count, f.pageSize);
  }

  /** A request refused by `IsValid` is answered 400 with every failed
      check's message and no page, whatever the store holds. */
  lemma RefusedRequestAnswer(store: Store, f: PropertyFilterDto, failure: Option<string>)
    requires WithinDeclaredBounds(f) && !Valid(f)
    ensures Answer(store, f, failure).BadRequest?
    ensures |Answer(store, f, failure).errors| >= 1
    ensures forall m :: m in Answer(store, f, failure).errors ==> m in AllMessages
  {
    ErrorsExactly(f);
    assert ValidationErrors(f) != [];
  }

  /** The request a client sends with no parameters is refused, whatever the
      store holds and whether or not it would fail: the default sort field
      "createdAt" fails the case-insensitive check. */
  lemma DefaultRequestRefused(store: Store, failure: Option<string>)
    ensures Answer(store, DefaultFilter, failure) == BadRequest([SortByMessage])
  {
    DefaultFilterRejected();
  }
}
