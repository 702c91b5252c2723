/**
 * The search request of `GET /api/properties/filter` and its validation
 * (`PropertyFilterDto.IsValid`).
 */
module FilterDto {
  import opened Wrappers
  import opened Text

  datatype PropertyFilterDto = PropertyFilterDto(
    name: Option<string>,
    address: Option<string>,
    minPrice: Option<int>,
    maxPrice: Option<int>,
    minYear: Option<int>,
    maxYear: Option<int>,
    ownerId: Option<string>,
    ownerName: Option<string>,
    codeInternal: Option<string>,
    createdAfter: Option<int>,
    createdBefore: Option<int>,
    page: int,
    pageSize: int,
    sortBy: string,
    sortDirection: string)

  /** A request that sets nothing: every filter absent, the declared defaults. */
  const DefaultFilter := PropertyFilterDto(
    None, None, None, None, None, None, None, None, None, None, None,
    1, 10, "createdAt", "desc")

  /** The data-annotation ranges that model binding enforces before the
      action runs; `IsValid` itself never looks at them. */
  predicate WithinDeclaredBounds(f: PropertyFilterDto) {
    && (f.minPrice.Some? ==> f.minPrice.value >= 0)
    && (f.maxPrice.Some? ==> f.maxPrice.value >= 0)
    && (f.minYear.Some? ==> 1800 <= f.minYear.value <= 3000)
    && (f.maxYear.Some? ==> 1800 <= f.maxYear.value <= 3000)
    && 1 <= f.page <= 0x7FFF_FFFF
    && 1 <= f.pageSize <= 100
  }

  const ValidSortFields: seq<string> := ["name", "price", "year", "address", "createdAt"]
  const ValidSortDirections: seq<string> := ["asc", "desc"]

  const MinPriceMessage := "MinPrice cannot be greater than MaxPrice"
  const MinYearMessage := "MinYear cannot be greater than MaxYear"
  const CreatedMessage := "CreatedAfter cannot be greater than CreatedBefore"
  const SortByMessage := "SortBy must be one of: name, price, year, address, createdAt"
  const SortDirectionMessage := "SortDirection must be either 'asc' or 'desc'"

  /** The five messages in the order `IsValid` may add them. */
  const AllMessages: seq<string> :=
    [MinPriceMessage, MinYearMessage, CreatedMessage, SortByMessage, SortDirectionMessage]

  predicate PriceInverted(f: PropertyFilterDto) {
    f.minPrice.Some? && f.maxPrice.Some? && f.minPrice.value > f.maxPrice.value
  }

  predicate YearInverted(f: PropertyFilterDto) {
    f.minYear.Some? && f.maxYear.Some? && f.minYear.value > f.maxYear.value
  }

  predicate CreatedInverted(f: PropertyFilterDto) {
    f.createdAfter.Some? && f.createdBefore.Some? && f.createdAfter.value > f.createdBefore.value
  }

  /** The lower-cased sort field is literally one of the five listed names. */
  predicate SortByAccepted(sortBy: string) {
    ToLower(sortBy) in ValidSortFields
  }

  predicate SortDirectionAccepted(sortDirection: string) {
    ToLower(sortDirection) in ValidSortDirections
  }

  /** One message when its check fails, nothing otherwise. */
  function Flag(fails: bool, message: string): seq<string> {
    if fails then [message] else []
  }

  /** The error list of a request: the messages of the failing checks. */
  function ValidationErrors(f: PropertyFilterDto): seq<string> {
    Flag(PriceInverted(f), MinPriceMessage)
    + Flag(YearInverted(f), MinYearMessage)
    + Flag(CreatedInverted(f), CreatedMessage)
    + Flag(!SortByAccepted(f.sortBy), SortByMessage)
    + Flag(!SortDirectionAccepted(f.sortDirection), SortDirectionMessage)
  }

  /** The request passes every check. */
  predicate Valid(f: PropertyFilterDto) {
    ValidationErrors(f) == []
  }

  /** All five checks run, none short-circuits the others; the result is
      true exactly when no message was collected. */
  method IsValid(f: PropertyFilterDto) returns (valid: bool, errors: seq<string>)
    ensures errors == ValidationErrors(f)
    ensures valid <==> errors == []
    ensures valid <==> !PriceInverted(f) && !YearInverted(f) && !CreatedInverted(f)
                       && SortByAccepted(f.sortBy) && SortDirectionAccepted(f.sortDirection)
  {
    errors := [];
    if f.minPrice.Some? && f.maxPrice.Some? && f.minPrice.value > f.maxPrice.value {
      errors := errors + [MinPriceMessage];
    }
    assert errors == Flag(PriceInverted(f), MinPriceMessage);
    if f.minYear.Some? && f.maxYear.Some? && f.minYear.value > f.maxYear.value {
      errors := errors + [MinYearMessage];
    }
    assert errors == Flag(PriceInverted(f), MinPriceMessage) + Flag(YearInverted(f), MinYearMessage);
    if f.createdAfter.Some? && f.createdBefore.Some? && f.createdAfter.value > f.createdBefore.value {
      errors := errors + [CreatedMessage];
    }
    if ToLower(f.sortBy) !in ValidSortFields {
      errors := errors + [SortByMessage];
    }
    if ToLower(f.sortDirection) !in ValidSortDirections {
      errors := errors + [SortDirectionMessage];
    }
    valid := |errors| == 0;
  }

  /** The position of a message in `AllMessages` (5 for any other text). */
  function Rank(message: string): nat {
    if message == MinPriceMessage then 0
    else if message == MinYearMessage then 1
    else if message == CreatedMessage then 2
    else if message == SortByMessage then 3
    else if message == SortDirectionMessage then 4
    else 5
  }

  /** The messages of `e` appear in the order of `AllMessages`. */
  predicate InCheckOrder(e: seq<string>) {
    forall i, j :: 0 <= i < j < |e| ==> Rank(e[i]) < Rank(e[j])
  }

  lemma RankOfMessages()
    ensures Rank(MinPriceMessage) == 0 && Rank(MinYearMessage) == 1 && Rank(CreatedMessage) == 2
    ensures Rank(SortByMessage) == 3 && Rank(SortDirectionMessage) == 4
  {
    assert |MinPriceMessage| == 40 && |MinYearMessage| == 38 && |CreatedMessage| == 49;
    assert |SortByMessage| == 60 && |SortDirectionMessage| == 44;
  }

  lemma AppendFlagInOrder(e: seq<string>, fails: bool, message: string)
    requires Rank(message) < 5
    requires InCheckOrder(e)
    requires forall i :: 0 <= i < |e| ==> Rank(e[i]) < Rank(message)
    ensures InCheckOrder(e + Flag(fails, message))
    ensures forall i :: 0 <= i < |e + Flag(fails, message)| ==> Rank((e + Flag(fails, message))[i]) <= Rank(message)
  {
  }

  /** The five flags, whatever their values, concatenate in rank order. */
  lemma FlagsInOrder(a: bool, b: bool, c: bool, d: bool, e: bool)
    ensures InCheckOrder(Flag(a, MinPriceMessage) + Flag(b, MinYearMessage) + Flag(c, CreatedMessage)
                         + Flag(d, SortByMessage) + Flag(e, SortDirectionMessage))
  {
    RankOfMessages();
    var e0 := Flag(a, MinPriceMessage);
    AppendFlagInOrder([], a, MinPriceMessage);
    assert [] + e0 == e0;
    var e1 := e0 + Flag(b, MinYearMessage);
    AppendFlagInOrder(e0, b, MinYearMessage);
    var e2 := e1 + Flag(c, CreatedMessage);
    AppendFlagInOrder(e1, c, CreatedMessage);
    var e3 := e2 + Flag(d, SortByMessage);
    AppendFlagInOrder(e2, d, SortByMessage);
    AppendFlagInOrder(e3, e, SortDirectionMessage);
  }

  /** The messages are reported in the order price, year, created, sort
      field, sort direction, so there are at most five of them. */
  lemma ErrorsInCheckOrder(f: PropertyFilterDto)
    ensures InCheckOrder(ValidationErrors(f))
    ensures |ValidationErrors(f)| <= 5
  {
    FlagsInOrder(PriceInverted(f), YearInverted(f), CreatedInverted(f),
                 !SortByAccepted(f.sortBy), !SortDirectionAccepted(f.sortDirection));
  }

  lemma InFlag(m: string, fails: bool, message: string)
    ensures m in Flag(fails, message) <==> fails && m == message
  {
  }

  /** The message of a check is reported exactly when that check fails, and
      the request is valid exactly when every check passes. */
  lemma ErrorsExactly(f: PropertyFilterDto)
    ensures MinPriceMessage in ValidationErrors(f) <==> PriceInverted(f)
    ensures MinYearMessage in ValidationErrors(f) <==> YearInverted(f)
    ensures CreatedMessage in ValidationErrors(f) <==> CreatedInverted(f)
    ensures SortByMessage in ValidationErrors(f) <==> !SortByAccepted(f.sortBy)
    ensures SortDirectionMessage in ValidationErrors(f) <==> !SortDirectionAccepted(f.sortDirection)
    ensures Valid(f) <==> !PriceInverted(f) && !YearInverted(f) && !CreatedInverted(f)
                          && SortByAccepted(f.sortBy) && SortDirectionAccepted(f.sortDirection)
  {
    forall k | 0 <= k < 5
      ensures AllMessages[k] in ValidationErrors(f) <==>
        ( (k == 0 && PriceInverted(f)) || (k == 1 && YearInverted(f)) || (k == 2 && CreatedInverted(f))
        || (k == 3 && !SortByAccepted(f.sortBy)) || (k == 4 && !SortDirectionAccepted(f.sortDirection)))
    {
      var m := AllMessages[k];
      assert Rank(m) == k;
      InFlag(m, PriceInverted(f), MinPriceMessage);
      InFlag(m, YearInverted(f), MinYearMessage);
      InFlag(m, CreatedInverted(f), CreatedMessage);
      InFlag(m, !SortByAccepted(f.sortBy), SortByMessage);
      InFlag(m, !SortDirectionAccepted(f.sortDirection), SortDirectionMessage);
    }
    assert AllMessages[0] == MinPriceMessage && AllMessages[4] == SortDirectionMessage;
  }

  /** A lower-cased string never holds an upper-case letter. */
  lemma LowerHasNoUpperA(s: string)
    ensures 'A' !in ToLower(s)
  {
    ToLowerAt(s);
    forall i | 0 <= i < |s| ensures ToLower(s)[i] != 'A' {
    }
  }

  /** The sort field is accepted exactly when its lower-cased form is one of
      the four all-lower-case names: no spelling of "createdAt" can pass,
      because the list entry holds an upper-case letter. */
  lemma SortByAcceptedExactly(sortBy: string)
    ensures SortByAccepted(sortBy) <==> ToLower(sortBy) in ["name", "price", "year", "address"]
    ensures ToLower(sortBy) == "createdat" ==> !SortByAccepted(sortBy)
  {
    LowerHasNoUpperA(sortBy);
    assert 'A' in "createdAt";
    assert ToLower(sortBy) != "createdAt";
  }

  /** No accepted field has eight or more letters except "createdAt", which
      no lower-cased string equals. */
  lemma LongSortFieldRefused(sortBy: string)
    requires |sortBy| >= 8
    ensures !SortByAccepted(sortBy)
  {
    SortByAcceptedExactly(sortBy);
  }

  /** The request with every default is refused, with the single complaint
      about the sort field. */
  lemma DefaultFilterRejected()
    ensures ValidationErrors(DefaultFilter) == [SortByMessage]
    ensures !Valid(DefaultFilter)
  {
    var f := DefaultFilter;
    LongSortFieldRefused(f.sortBy);
    assert SortDirectionAccepted(f.sortDirection) by {
      assert ToLower("desc") == "desc";
    }
    OnlySortFieldRefused(f);
  }

  /** A request whose only fault is its sort field gets exactly one error. */
  lemma OnlySortFieldRefused(f: PropertyFilterDto)
    requires !PriceInverted(f) && !YearInverted(f) && !CreatedInverted(f)
    requires !SortByAccepted(f.sortBy) && SortDirectionAccepted(f.sortDirection)
    ensures ValidationErrors(f) == [SortByMessage]
  {
  }

  /** Equal bounds are not an inversion: only a strictly larger minimum is. */
  lemma EqualBoundsAccepted(f: PropertyFilterDto)
    requires f.minPrice.Some? && f.maxPrice == f.minPrice
    requires f.minYear.Some? && f.maxYear == f.minYear
    requires f.createdAfter.Some? && f.createdBefore == f.createdAfter
    ensures MinPriceMessage !in ValidationErrors(f)
    ensures MinYearMessage !in ValidationErrors(f)
    ensures CreatedMessage !in ValidationErrors(f)
  {
    ErrorsExactly(f);
  }
}
