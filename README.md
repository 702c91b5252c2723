# MillionProperties: filtered property search, modelled in Dafny

MillionProperties is a real-estate listing application. An ASP.NET Core
backend stores properties, their owners, images and sale traces in MongoDB.
A Next.js frontend lists them with filters, sorting and page buttons. This
project models the one path that both halves share: searching the list.

- **The request and its validation.** `PropertyFilterDto` describes the
  request; `IsValid` runs five checks and collects their messages in order.
  The price, year and creation-date bounds must not be inverted. The sort
  field, lower-cased, must be in the list `name, price, year, address,
  createdAt`. The sort direction must be `asc` or `desc`.
- **The repository.** `PropertyRepository.GetFilteredAsync` turns the
  request into store predicates. It resolves an owner-name search to owner
  ids, returning early when none match. It then counts the matches, sorts
  them on the requested key and cuts out one page.
- **The controller.** `PropertiesController.GetFiltered` answers 400 for a
  request that fails validation. Otherwise it adds each property's enabled
  images, traces and owner, computes the paging metadata, and turns a store
  exception into a 500.
- **The frontend.** The model covers:
  - the API call that chooses the query parameters;
  - the service that replaces any failure with an empty page;
  - the two hooks that hold the filter record and the fetched page;
  - the hook that reads and writes the browser address;
  - the list with its summary line and page buttons;
  - the property card;
  - the two filter panels.
  Each panel reports every edit by calling `onFiltersChange` with a record
  built from the `filters` prop it received.

The store is a fixed snapshot: a `Store` value holding four sequences. A
store or network failure is a parameter of the operation that would observe
it. A callback the frontend calls is modelled as a recorded list of the
values it was called with: the `emitted` field of the panels.

Modelled as written, and proved about the model:

- **No casing of the default sort field is accepted.** The backend's list holds
  `createdAt` with an upper-case letter, but it is compared with the
  lower-cased request. So the request with every default is refused
  (`FilterDto.DefaultFilterRejected`, `PropertiesController.DefaultRequestRefused`).
- **The frontend asks for sort fields the backend refuses.** Every sort kind
  except price is refused: `createdAt` as above, and `updatedAt`, `area` and
  `bedrooms` because they are not in the list
  (`PropertiesApi.SentSortRefused`). The service then shows the empty first
  page, whatever the store holds (`PropertyService.SortedRequestShowsEmptyPage`).
- **The range handlers emit stale records.** Each range handler calls
  `onFiltersChange` twice, both times from the same incoming record. The
  second record, which a parent keeps, carries the new upper bound and the old
  lower bound (`PropertyFiltersSimple.RangeKeepsStaleMin` and the `emitted`
  clauses of the range handlers).

Modules follow the source files:

| source file | files of the model |
|---|---|
| `PropertyFilterDto.cs` | `filter_dto.dfy` |
| `PropertyRepository.cs` | `property_repository.dfy` |
| `PropertiesController.cs` | `properties_controller.dfy` |
| `properties.api.ts` | `properties_api.dfy` |
| `useUrlParams.ts` | `url_params.dfy` |
| `PropertyList.tsx` | `property_list.dfy` |
| `usePropertyFilters.ts` | `use_property_filters.dfy` |
| `useProperties.ts` | `use_properties.dfy` |
| `property.service.ts` | `property_service.dfy` |
| `PropertyFiltersSimple.tsx` | `property_filters_simple.dfy` |
| `PropertyFilters.tsx` | `property_filters_component.dfy` |
| `PropertyCard.tsx` | `property_card.dfy` |
| shared | `models.dfy` (stored documents), `frontend_types.dfy` (the filter record and JavaScript truthiness), `text.dfy` (lower-casing, .NET and ECMAScript white space, containment, `parseInt`, `split`/`join`), `sorting.dfy` (the store's sort), `wrappers.dfy` (`Option`) |

## Model

| member | source | states |
|---|---|---|
| FilterDto.IsValid | MillionProperties/DTOs/PropertyFilterDto.cs:91-123 | the errors are exactly the messages of the failing checks, and the result is true exactly when no check fails |
| FilterDto.ErrorsInCheckOrder | MillionProperties/DTOs/PropertyFilterDto.cs:93-120 | the messages come in check order (price, year, created, sort field, direction), so there are at most five |
| FilterDto.FlagsInOrder | MillionProperties/DTOs/PropertyFilterDto.cs:93-120 | whatever checks fail, their messages concatenate in rank order |
| FilterDto.ErrorsExactly | MillionProperties/DTOs/PropertyFilterDto.cs:95-120 | each message is present exactly when its check fails, and the request is valid exactly when all five pass |
| FilterDto.SortByAcceptedExactly | MillionProperties/DTOs/PropertyFilterDto.cs:110-114 | a sort field passes exactly when its lower-cased form is name, price, year or address; a field that lower-cases to "createdat" never passes |
| FilterDto.LowerHasNoUpperA | MillionProperties/DTOs/PropertyFilterDto.cs:111 | a lower-cased string never contains 'A', so it can never equal "createdAt" |
| FilterDto.LongSortFieldRefused | MillionProperties/DTOs/PropertyFilterDto.cs:110-114 | no sort field of eight or more characters passes |
| FilterDto.DefaultFilterRejected | MillionProperties/DTOs/PropertyFilterDto.cs:70-123 | the request with every default (sortBy "createdAt", direction "desc") is invalid, with the sort-field message as its only error |
| FilterDto.OnlySortFieldRefused | MillionProperties/DTOs/PropertyFilterDto.cs:93-122 | a request whose only fault is its sort field gets exactly the sort-field message |
| FilterDto.EqualBoundsAccepted | MillionProperties/DTOs/PropertyFilterDto.cs:95-108 | equal bounds raise none of the three inversion messages; only a strictly larger minimum does |
| FilterDto.RankOfMessages | MillionProperties/DTOs/PropertyFilterDto.cs:97-119 | the five messages are five different texts |
| PropertyRepository.FilterList.Count | MillionProperties/Repositories/PropertyRepository.cs:134-141 | the list has no predicate exactly when it is the empty list |
| PropertyRepository.Find | MillionProperties/Repositories/PropertyRepository.cs:181-182 | the store's find returns exactly the stored properties the query selects, and never more than are stored |
| PropertyRepository.OwnerIdsNamed | MillionProperties/Repositories/PropertyRepository.cs:116-119 | the resolved ids are exactly those of owners whose lower-cased name contains the lower-cased text |
| PropertyRepository.Selected | MillionProperties/Repositories/PropertyRepository.cs:53-153 | the reference meaning of a request: exactly the stored properties that satisfy every given condition; a text counts as given when it is not null or white space by .NET's `char.IsWhiteSpace` |
| PropertyRepository.TextFiltersMeaning | MillionProperties/Repositories/PropertyRepository.cs:58-68 | the name and address predicates hold exactly when each given text that is not white space (by .NET's `char.IsWhiteSpace`, Unicode space separators included) occurs case-insensitively in its field |
| PropertyRepository.PriceFiltersMeaning | MillionProperties/Repositories/PropertyRepository.cs:70-78 | the price predicates hold exactly when the price lies within each given bound, both inclusive |
| PropertyRepository.YearFiltersMeaning | MillionProperties/Repositories/PropertyRepository.cs:80-88 | the year predicates hold exactly when the year lies within each given bound, both inclusive |
| PropertyRepository.OwnerAndCodeFiltersMeaning | MillionProperties/Repositories/PropertyRepository.cs:90-100 | the owner-id and code predicates hold exactly when the owner id equals a given id and a given code occurs case-insensitively; an id or code of white space by .NET's `char.IsWhiteSpace` is not given |
| PropertyRepository.CreatedFiltersMeaning | MillionProperties/Repositories/PropertyRepository.cs:102-110 | the creation predicates hold exactly when the creation instant lies within each given bound |
| PropertyRepository.FieldClausesMeaning | MillionProperties/Repositories/PropertyRepository.cs:56-110 | the whole list of field predicates holds exactly when every field condition of the request holds |
| PropertyRepository.CombinedQueryMeaning | MillionProperties/Repositories/PropertyRepository.cs:112-150 | the combined filter selects a property exactly when it answers the request, including the owner-name condition |
| PropertyRepository.CombinedQueryFinds | MillionProperties/Repositories/PropertyRepository.cs:133-153 | finding with the combined filter gives exactly the matching properties in store order |
| PropertyRepository.FindAgrees | MillionProperties/Repositories/PropertyRepository.cs:153 | a query that agrees with the request on every stored property finds exactly the matches |
| PropertyRepository.SelectedOwnedByResolved | MillionProperties/Repositories/PropertyRepository.cs:114-124 | with an owner name given, every match is owned by one of the resolved owners |
| PropertyRepository.NoNamedOwnerSelectsNothing | MillionProperties/Repositories/PropertyRepository.cs:121-129 | when no owner's name contains the text, nothing matches |
| PropertyRepository.BlankOwnerNameIgnored | MillionProperties/Repositories/PropertyRepository.cs:113-114 | an owner name made only of white space, by .NET's Unicode rules, is skipped: the request selects exactly what it selects with no owner name |
| PropertyRepository.IdeographicSpaceOwnerNameIgnored | MillionProperties/Repositories/PropertyRepository.cs:114 | an owner name of U+3000 is blank, so the owner filter is left out instead of resolving no owner |
| PropertyRepository.UnresolvedOwnerGivesEmptyPage | MillionProperties/Repositories/PropertyRepository.cs:125-129 | the early return (empty list, count 0) is what the request means there: no match and an empty page |
| PropertyRepository.PrecedesTotal | MillionProperties/Repositories/PropertyRepository.cs:156-177 | for every key and direction, any two properties are ordered one way or the other |
| PropertyRepository.PrecedesTransitive | MillionProperties/Repositories/PropertyRepository.cs:156-177 | the order on every key and direction is transitive |
| PropertyRepository.OrderedSorted | MillionProperties/Repositories/PropertyRepository.cs:156-183 | the sort gives a permutation of the matches, ordered on the requested key and direction |
| PropertyRepository.Window | MillionProperties/Repositories/PropertyRepository.cs:180-185 | skip and limit give at most limit elements, the ones from the offset on, in order |
| PropertyRepository.WindowOfOrdered | MillionProperties/Repositories/PropertyRepository.cs:180-186 | a window of the sorted matches is sorted, holds only matches, and has the length skip and limit allow |
| PropertyRepository.PageFacts | MillionProperties/Repositories/PropertyRepository.cs:156-186 | a page is sorted, holds only found properties, and holds pageSize of them or what is left after the offset |
| PropertyRepository.PageSorted | MillionProperties/Repositories/PropertyRepository.cs:157-183 | the page is ordered on the requested key, ascending only for "asc" in any casing |
| PropertyRepository.PageMatches | MillionProperties/Repositories/PropertyRepository.cs:180-186 | every property on the page is stored and answers the request |
| PropertyRepository.PageLength | MillionProperties/Repositories/PropertyRepository.cs:180-185 | the page holds min(pageSize, matches left after (page - 1) * pageSize) properties |
| PropertyRepository.AddTextFilters | MillionProperties/Repositories/PropertyRepository.cs:58-68 | adds the name and address predicates exactly for the texts that are not null or white space by .NET's `char.IsWhiteSpace`, Unicode space separators included |
| PropertyRepository.AddPriceFilters | MillionProperties/Repositories/PropertyRepository.cs:70-78 | adds a predicate for each given price bound |
| PropertyRepository.AddYearFilters | MillionProperties/Repositories/PropertyRepository.cs:80-88 | adds a predicate for each given year bound |
| PropertyRepository.AddOwnerAndCodeFilters | MillionProperties/Repositories/PropertyRepository.cs:90-100 | adds the owner-id and code predicates exactly for the texts that are not null or white space by .NET's `char.IsWhiteSpace`, Unicode space separators included |
| PropertyRepository.AddCreatedFilters | MillionProperties/Repositories/PropertyRepository.cs:102-110 | adds a predicate for each given creation bound |
| PropertyRepository.BuildFieldFilters | MillionProperties/Repositories/PropertyRepository.cs:55-110 | builds the field predicates in the order the repository adds them |
| PropertyRepository.ChooseSortKey | MillionProperties/Repositories/PropertyRepository.cs:159-177 | the switch picks the key of the lower-cased field, and the creation instant for anything else |
| PropertyRepository.CombineFilters | MillionProperties/Repositories/PropertyRepository.cs:132-150 | joins the field predicates and the owner predicate as the four branches do |
| PropertyRepository.GetFilteredAsync | MillionProperties/Repositories/PropertyRepository.cs:53-189 | the count is the number of matches; the properties are the requested page of the sorted matches; the store is queried unless an owner name resolves to no owner |
| Sorting.InsertionSortCorrect | MillionProperties/Repositories/PropertyRepository.cs:181-183 | sorting with a total, transitive order gives a sorted permutation of the input |
| Text.ContainsMeaning | MillionProperties/Repositories/PropertyRepository.cs:117 | a text contains a pattern exactly when the pattern occurs at some position |
| PropertiesController.EnabledImagesOf | MillionProperties/Controllers/PropertiesController.cs:270 | a property's images are exactly its stored images that are enabled |
| PropertiesController.TracesOf | MillionProperties/Controllers/PropertiesController.cs:271 | a property's traces are exactly its stored traces |
| PropertiesController.OwnerById | MillionProperties/Controllers/PropertiesController.cs:272 | the owner is a stored owner with the property's owner id, or null exactly when there is none |
| PropertiesController.ToDtoFaithful | MillionProperties/Controllers/PropertiesController.cs:274-315 | a DTO copies the property's fields, holds its enabled images and its traces, and has no owner exactly when no stored owner has that id |
| PropertiesController.DtosOf | MillionProperties/Controllers/PropertiesController.cs:267-317 | one DTO per property of the page |
| PropertiesController.DtosOfAt | MillionProperties/Controllers/PropertiesController.cs:267-317 | the k-th DTO is made from the k-th property of the page |
| PropertiesController.TotalPages | MillionProperties/Controllers/PropertiesController.cs:320 | the page count is the fewest pages of pageSize that hold every match |
| PropertiesController.TotalPagesZero | MillionProperties/Controllers/PropertiesController.cs:320 | there are no pages exactly when there are no matches |
| PropertiesController.HasNextPageMeaning | MillionProperties/Controllers/PropertiesController.cs:320-329 | HasNextPage holds exactly when matches remain beyond the requested page |
| PropertiesController.GetFiltered | MillionProperties/Controllers/PropertiesController.cs:254-339 | answers with the model-binding 400, the validation 400, the 500 of a failing store, or the 200 with the page, in that order of precedence |
| PropertiesController.FilteredFaithful | MillionProperties/Controllers/PropertiesController.cs:264-333 | the 200 echoes page and size, counts every match, holds one DTO per page property in page order, and its flags say whether pages remain on either side |
| PropertiesController.RefusedRequestAnswer | MillionProperties/Controllers/PropertiesController.cs:257-260 | an invalid request gets a 400 with at least one error, and every error is one of the five messages, whatever the store holds |
| PropertiesController.DefaultRequestRefused | MillionProperties/Controllers/PropertiesController.cs:257-260 | a request with no parameters gets a 400 with the sort-field message only, whether or not the store would fail |
| PropertiesApi.GetProperties | MillionPropertiesFrontend/src/lib/api/properties.api.ts:29-67 | each parameter is sent exactly when its filter passes the truthiness and range test, with the filter's value; the sort field and direction follow the kind, or name ascending without a kind |
| PropertiesApi.AddPriceParams | MillionPropertiesFrontend/src/lib/api/properties.api.ts:36-37 | MinPrice is sent only for a positive minimum, MaxPrice only for a truthy maximum below 2000000; nothing else changes |
| PropertiesApi.AddYearParams | MillionPropertiesFrontend/src/lib/api/properties.api.ts:38-39 | MinYear is sent only above 1800, MaxYear only for a truthy maximum below 2030; nothing else changes |
| PropertiesApi.AddSortParams | MillionPropertiesFrontend/src/lib/api/properties.api.ts:41-67 | the sort field of the kind, with the explicit order or the kind's default direction; name ascending without a kind |
| PropertiesApi.Bind | MillionProperties/DTOs/PropertyFilterDto.cs:70-86 | a parameter that is not sent leaves the request's default in place |
| PropertiesApi.SentSortFieldAccepted | MillionPropertiesFrontend/src/lib/api/properties.api.ts:41-63 | of the five sort fields the frontend sends, the backend accepts only "price" |
| PropertiesApi.SentSortDirectionAccepted | MillionPropertiesFrontend/src/lib/api/properties.api.ts:45-61 | every direction the frontend sends passes the backend's check |
| PropertiesApi.UnsortedRequestAccepted | MillionPropertiesFrontend/src/lib/api/properties.api.ts:64-67 | the unsorted request's name ascending passes both sort checks |
| PropertiesApi.SentSortRefused | MillionPropertiesFrontend/src/lib/api/properties.api.ts:41-63 | a request sent with any sort kind but price is answered 400 with the sort-field message |
| UrlParams.Lookup | MillionPropertiesFrontend/src/lib/hooks/useUrlParams.ts:12 | a found value is stored under the name |
| UrlParams.LookupNone | MillionPropertiesFrontend/src/lib/hooks/useUrlParams.ts:12 | a name is missing exactly when no entry carries it |
| UrlParams.LookupAppend | MillionPropertiesFrontend/src/lib/hooks/useUrlParams.ts:12 | in a concatenation the first part's entry wins |
| UrlParams.Given | MillionPropertiesFrontend/src/lib/hooks/useUrlParams.ts:12-19 | a parameter counts exactly when it is present and not empty |
| UrlParams.FiltersFromUrlMeaning | MillionPropertiesFrontend/src/lib/hooks/useUrlParams.ts:9-27 | the record holds a key exactly when the query sets it, with the value read from it; only search, the two prices and the sort order are ever set |
| UrlParams.GetFiltersFromUrl | MillionPropertiesFrontend/src/lib/hooks/useUrlParams.ts:9-27 | builds that record |
| UrlParams.ReadPrices | MillionPropertiesFrontend/src/lib/hooks/useUrlParams.ts:15-19 | sets each price whose parameter is present and not empty, to what parseInt reads |
| UrlParams.PageFromUrl | MillionPropertiesFrontend/src/lib/hooks/useUrlParams.ts:51-54 | the page is at least 1, and NaN exactly when a page parameter that does not start with a number is given |
| UrlParams.SetNewParam | MillionPropertiesFrontend/src/lib/hooks/useUrlParams.ts:63-88 | setting a name not yet present appends its entry |
| UrlParams.UpdateUrlParams | MillionPropertiesFrontend/src/lib/hooks/useUrlParams.ts:56-92 | builds the query of the truthy filters, the sort kind and a page past the first, and pushes "?query", or "/properties" when the query is empty |
| UrlParams.SetFilterParams | MillionPropertiesFrontend/src/lib/hooks/useUrlParams.ts:63-66 | one entry per truthy filter, in order |
| UrlParams.SetIfTruthy | MillionPropertiesFrontend/src/lib/hooks/useUrlParams.ts:63-66 | a truthy value appends its text under a new name; a falsy one adds nothing |
| UrlParams.SetPagingParams | MillionPropertiesFrontend/src/lib/hooks/useUrlParams.ts:68-88 | adds the sort kind's name when there is one and the page when it is past the first |
| UrlParams.FilterEntryNames | MillionPropertiesFrontend/src/lib/hooks/useUrlParams.ts:63-66 | the filter step writes only its four names |
| UrlParams.LookupWritten | MillionPropertiesFrontend/src/lib/hooks/useUrlParams.ts:63-88 | in the written query each of the six names reads back its own entry |
| UrlParams.LookupFilterEntries | MillionPropertiesFrontend/src/lib/hooks/useUrlParams.ts:63-66 | a filter name reads back the value's text exactly when the value is truthy |
| UrlParams.LookupFilterEntriesOther | MillionPropertiesFrontend/src/lib/hooks/useUrlParams.ts:63-66 | the filter step never writes sortBy or page |
| UrlParams.LookupPagingEntriesOther | MillionPropertiesFrontend/src/lib/hooks/useUrlParams.ts:68-88 | the paging step never writes a filter name |
| UrlParams.UrlQueryWrites | MillionPropertiesFrontend/src/lib/hooks/useUrlParams.ts:63-88 | the query holds each truthy filter's text, the sort kind when given, and the page only past the first |
| UrlParams.LowerCreatedAt | MillionPropertiesFrontend/src/lib/hooks/useUrlParams.ts:33-36 | "createdAt" lower-cases to "createdat" |
| UrlParams.LowerUpdatedAt | MillionPropertiesFrontend/src/lib/hooks/useUrlParams.ts:33-39 | "updatedAt" lower-cases to "updatedat" |
| UrlParams.SortNameRoundTrip | MillionPropertiesFrontend/src/lib/hooks/useUrlParams.ts:29-49 | reading the name written for a sort kind gives that kind |
| UrlParams.ReadPrice | MillionPropertiesFrontend/src/lib/hooks/useUrlParams.ts:33-35 | "price" reads as the price kind |
| UrlParams.ReadCreatedAt | MillionPropertiesFrontend/src/lib/hooks/useUrlParams.ts:33-38 | "createdAt" reads as the creation-date kind |
| UrlParams.ReadUpdatedAt | MillionPropertiesFrontend/src/lib/hooks/useUrlParams.ts:33-41 | "updatedAt" reads as the update-date kind |
| UrlParams.ReadArea | MillionPropertiesFrontend/src/lib/hooks/useUrlParams.ts:42-43 | "area" reads as the area kind |
| UrlParams.ReadBedrooms | MillionPropertiesFrontend/src/lib/hooks/useUrlParams.ts:44-45 | "bedrooms" reads as the bedrooms kind |
| UrlParams.SortByRoundTrip | MillionPropertiesFrontend/src/lib/hooks/useUrlParams.ts:29-86 | the sort kind read back from a written query is the one written, or none |
| UrlParams.PageRoundTrip | MillionPropertiesFrontend/src/lib/hooks/useUrlParams.ts:51-88 | a page of at least 1, once written, reads back unchanged |
| UrlParams.PriceReadBack | MillionPropertiesFrontend/src/lib/hooks/useUrlParams.ts:15-65 | a written price reads back as the same number, and a falsy one as no bound |
| UrlParams.TextReadBack | MillionPropertiesFrontend/src/lib/hooks/useUrlParams.ts:12-66 | a written search or sort order reads back unchanged, and a falsy one as nothing |
| UrlParams.FiltersRoundTrip | MillionPropertiesFrontend/src/lib/hooks/useUrlParams.ts:9-66 | writing a record and reading it back gives exactly its truthy search, prices and sort order |
| UrlParams.PairTextPlain | MillionPropertiesFrontend/src/lib/hooks/useUrlParams.ts:90 | a plain pair's text contains no '&' and splits back at its first '=' into the pair |
| UrlParams.ParsePairTexts | MillionPropertiesFrontend/src/lib/hooks/useUrlParams.ts:90 | parsing the texts of plain pairs gives the pairs back |
| UrlParams.QueryTextRoundTrip | MillionPropertiesFrontend/src/lib/hooks/useUrlParams.ts:90 | parsing the query string of plain pairs gives the pairs back |
| UrlParams.TargetRoundTrip | MillionPropertiesFrontend/src/lib/hooks/useUrlParams.ts:90-91 | the parameters of the pushed address are the query that was built, the empty query included |
| UrlParams.PlainAppend | MillionPropertiesFrontend/src/lib/hooks/useUrlParams.ts:61-88 | joining two plain queries gives a plain query |
| UrlParams.EntryPlain | MillionPropertiesFrontend/src/lib/hooks/useUrlParams.ts:63-88 | an entry with a plain name and value is plain |
| UrlParams.FilterEntriesPlain | MillionPropertiesFrontend/src/lib/hooks/useUrlParams.ts:63-66 | the filter entries are plain when the search contains no '&' |
| UrlParams.PagingEntriesPlain | MillionPropertiesFrontend/src/lib/hooks/useUrlParams.ts:68-88 | the sort and page entries are always plain |
| UrlParams.UrlQueryPlain | MillionPropertiesFrontend/src/lib/hooks/useUrlParams.ts:61-88 | every pair written is plain when the search contains no '&' |
| UrlParams.AddressRoundTrip | MillionPropertiesFrontend/src/lib/hooks/useUrlParams.ts:9-92 | loading the pushed address gives back the record's truthy part, the same sort kind and the same page |
| Text.ParseIntJsOfToString | MillionPropertiesFrontend/src/lib/hooks/useUrlParams.ts:16 | parseInt of a printed integer gives the integer back |
| PropertyList.Range | MillionPropertiesFrontend/src/features/properties/components/PropertyList.tsx:82-84 | the consecutive integers from lo to hi, none when lo > hi |
| PropertyList.RenderPagination | MillionPropertiesFrontend/src/features/properties/components/PropertyList.tsx:73-146 | the bar is the one ControlOf describes, whose properties are the lemmas below |
| PropertyList.PushPages | MillionPropertiesFrontend/src/features/properties/components/PropertyList.tsx:77-84 | the loop pushes the page numbers from startPage to endPage in order |
| PropertyList.WindowFacts | MillionPropertiesFrontend/src/features/properties/components/PropertyList.tsx:74-120 | a bar shows exactly for more than one page; its window has at most five consecutive pages inside 1..totalPages and holds the current page |
| PropertyList.EllipsisMeansGap | MillionPropertiesFrontend/src/features/properties/components/PropertyList.tsx:98-133 | the first and last buttons never repeat a window button, and each "..." shows exactly when pages are left out |
| PropertyList.EveryPageReachable | MillionPropertiesFrontend/src/features/properties/components/PropertyList.tsx:98-133 | every page is either a button or lies behind an ellipsis |
| PropertyList.PreviousNextDisabled | MillionPropertiesFrontend/src/features/properties/components/PropertyList.tsx:91-139 | Previous is disabled exactly on page 1 and Next exactly on the last page |
| PropertyList.ShowingRange | MillionPropertiesFrontend/src/features/properties/components/PropertyList.tsx:152-155 | the summary shows the range with the pagination's total |
| PropertyList.ShowingCountsPage | MillionPropertiesFrontend/src/features/properties/components/PropertyList.tsx:154 | on a page that starts before the end, the range lies inside 1..total and counts min(limit, what is left) items |
| PropertyList.ShowingMatchesAnswer | MillionPropertiesFrontend/src/features/properties/components/PropertyList.tsx:154 | for a non-empty page from the backend, the range counts exactly the properties shown |
| PropertyList.Render | MillionPropertiesFrontend/src/features/properties/components/PropertyList.tsx:39-170 | an error wins over loading and loading over an empty list; the alert shows the error text; a list shows every property as a card, the summary `ShowingRange` of the pagination when there is one and the property count otherwise, and the bar |
| UsePropertyFilters.Overlay | MillionPropertiesFrontend/src/features/properties/hooks/usePropertyFilters.ts:20-23 | the spread has exactly the keys of both records |
| UsePropertyFilters.OverlayReads | MillionPropertiesFrontend/src/features/properties/hooks/usePropertyFilters.ts:20-23 | a key reads from the initial filters when they hold it, otherwise from the defaults |
| UsePropertyFilters.Cleared | MillionPropertiesFrontend/src/features/properties/hooks/usePropertyFilters.ts:39-45 | the cleared key is gone and reads undefined; every other key is untouched |
| UsePropertyFilters.ClearedAbsent | MillionPropertiesFrontend/src/features/properties/hooks/usePropertyFilters.ts:39-45 | clearing a missing key changes nothing, and clearing twice is clearing once |
| UsePropertyFilters.FilterState.constructor | MillionPropertiesFrontend/src/features/properties/hooks/usePropertyFilters.ts:14-23 | the state starts as the defaults overlaid with the initial filters |
| UsePropertyFilters.FilterState.UpdateFilter | MillionPropertiesFrontend/src/features/properties/hooks/usePropertyFilters.ts:25-33 | the key takes the value and every other key keeps its value |
| UsePropertyFilters.FilterState.ResetFilters | MillionPropertiesFrontend/src/features/properties/hooks/usePropertyFilters.ts:35-37 | the state becomes the defaults, whatever it was |
| UsePropertyFilters.FilterState.ClearFilter | MillionPropertiesFrontend/src/features/properties/hooks/usePropertyFilters.ts:39-45 | the state becomes the previous record without the key |
| UsePropertyFilters.FilterState.SetFilters | MillionPropertiesFrontend/src/features/properties/hooks/usePropertyFilters.ts:20 | the whole record is replaced |
| UseProperties.ErrorMessage | MillionPropertiesFrontend/src/features/properties/hooks/useProperties.ts:77 | an Error gives its message; any other thrown value gives "An error occurred" |
| UseProperties.PropertiesState.constructor | MillionPropertiesFrontend/src/features/properties/hooks/useProperties.ts:29-42 | nothing loaded, no error, the initial page and size, and the initial arguments remembered |
| UseProperties.PropertiesState.StartFetch | MillionPropertiesFrontend/src/features/properties/hooks/useProperties.ts:50 | loading starts and the error clears; nothing else changes |
| UseProperties.PropertiesState.FetchProperties | MillionPropertiesFrontend/src/features/properties/hooks/useProperties.ts:44-81 | a result replaces the page and remembers the arguments; a rejection stores its message and keeps the rest; loading ends either way |
| UseProperties.PropertiesState.Refetch | MillionPropertiesFrontend/src/features/properties/hooks/useProperties.ts:83-85 | fetches again with the remembered arguments, which stay as they were |
| UseProperties.PropertiesState.ClearError | MillionPropertiesFrontend/src/features/properties/hooks/useProperties.ts:87-89 | only the error is cleared |
| UseProperties.PropertiesState.FetchThroughService | MillionPropertiesFrontend/src/features/properties/hooks/useProperties.ts:53-58 | through the service no error is ever stored, and a failed call shows the empty first page |
| PropertyService.ClientOutcome | MillionPropertiesFrontend/src/lib/api/client.ts:38-44 | the call resolves exactly for a 200, with its body; any other status throws a value that is not an Error |
| PropertyService.GetProperties | MillionPropertiesFrontend/src/features/properties/services/property.service.ts:5-25 | the API's answer unchanged, or on any failure the empty first page of size 12 with no pages |
| PropertyService.FailureLooksEmpty | MillionPropertiesFrontend/src/features/properties/services/property.service.ts:11-24 | a failure cannot be told apart from a page-1, size-12 search with no matches |
| PropertyService.GetPropertyById | MillionPropertiesFrontend/src/features/properties/services/property.service.ts:27-34 | the property, or an Error naming the id whatever went wrong |
| PropertyService.PropertyByIdHidesCause | MillionPropertiesFrontend/src/features/properties/services/property.service.ts:29-33 | two different causes give the same error, and different ids give different errors |
| PropertyService.SortedRequestShowsEmptyPage | MillionPropertiesFrontend/src/features/properties/services/property.service.ts:11-24 | a list request sorted by anything but price ends as the empty first page, whatever the store holds |
| PropertyFiltersSimple.ActiveFiltersCount | MillionPropertiesFrontend/src/features/properties/components/PropertyFiltersSimple.tsx:59-69 | at most seven filters count as active |
| PropertyFiltersSimple.NoActiveFilters | MillionPropertiesFrontend/src/features/properties/components/PropertyFiltersSimple.tsx:59-69 | no filter is active exactly when search and the four bounds are falsy and the sort is unset or newest first |
| PropertyFiltersSimple.DefaultsShowNoClear | MillionPropertiesFrontend/src/features/properties/components/PropertyFiltersSimple.tsx:80-91 | the hook's defaults count no active filter, so neither the badge nor Clear shows |
| PropertyFiltersSimple.PriceInput | MillionPropertiesFrontend/src/features/properties/components/PropertyFiltersSimple.tsx:37-43 | an empty box stores undefined; anything else stores a number or NaN |
| PropertyFiltersSimple.PriceInputOfNumber | MillionPropertiesFrontend/src/features/properties/components/PropertyFiltersSimple.tsx:37-43 | a typed integer is stored as that number |
| PropertyFiltersSimple.RangeKeepsStaleMin | MillionPropertiesFrontend/src/features/properties/components/PropertyFiltersSimple.tsx:47-57 | the second record a range handler emits has the new upper bound and the lower bound of the incoming filters |
| PropertyFiltersSimple.FiltersSimple.constructor | MillionPropertiesFrontend/src/features/properties/components/PropertyFiltersSimple.tsx:28-29 | the price boxes start with the incoming prices' text, or empty |
| PropertyFiltersSimple.FiltersSimple.UpdateFilter | MillionPropertiesFrontend/src/features/properties/components/PropertyFiltersSimple.tsx:31-33 | emits the incoming filters with the one key changed |
| PropertyFiltersSimple.FiltersSimple.HandleMinPriceChange | MillionPropertiesFrontend/src/features/properties/components/PropertyFiltersSimple.tsx:35-39 | the box keeps the text and the emitted record holds what it reads as |
| PropertyFiltersSimple.FiltersSimple.HandleMaxPriceChange | MillionPropertiesFrontend/src/features/properties/components/PropertyFiltersSimple.tsx:41-45 | the box keeps the text and the emitted record holds what it reads as |
| PropertyFiltersSimple.FiltersSimple.HandlePriceRangeChange | MillionPropertiesFrontend/src/features/properties/components/PropertyFiltersSimple.tsx:47-52 | emits two records, each from the incoming filters, and shows both bounds in the boxes |
| PropertyFiltersSimple.FiltersSimple.HandleYearRangeChange | MillionPropertiesFrontend/src/features/properties/components/PropertyFiltersSimple.tsx:54-57 | emits two records, each from the incoming filters |
| PropertyFiltersSimple.FiltersSimple.HandleSearchChange | MillionPropertiesFrontend/src/features/properties/components/PropertyFiltersSimple.tsx:102 | emits the search text, or undefined for an empty box |
| PropertyFiltersSimple.FiltersSimple.HandleSortByChange | MillionPropertiesFrontend/src/features/properties/components/PropertyFiltersSimple.tsx:167-178 | emits the chosen kind, one of price, date created and date updated |
| PropertyFiltersSimple.FiltersSimple.HandleSortOrderChange | MillionPropertiesFrontend/src/features/properties/components/PropertyFiltersSimple.tsx:184-194 | emits the chosen order |
| PropertyFiltersComponent.ActiveFiltersCount | MillionPropertiesFrontend/src/features/properties/components/PropertyFilters.tsx:63-75 | at most eight filters count as active |
| PropertyFiltersComponent.NoActiveFilters | MillionPropertiesFrontend/src/features/properties/components/PropertyFilters.tsx:63-75 | no filter is active exactly when all eight are falsy; the sort is never counted |
| PropertyFiltersComponent.LowerBound | MillionPropertiesFrontend/src/features/properties/components/PropertyFilters.tsx:52-59 | a lower bound is kept exactly above the floor |
| PropertyFiltersComponent.UpperBound | MillionPropertiesFrontend/src/features/properties/components/PropertyFilters.tsx:53-60 | an upper bound is kept exactly below the ceiling |
| PropertyFiltersComponent.LowerBoundTruthy | MillionPropertiesFrontend/src/features/properties/components/PropertyFilters.tsx:52-59 | a kept lower bound is truthy, so the next request carries it |
| PropertyFiltersComponent.Entered | MillionPropertiesFrontend/src/features/properties/components/PropertyFilters.tsx:204-257 | the typed number unless it is 0 or NaN, else the slider's end |
| PropertyFiltersComponent.UnreadableEntryClearsBound | MillionPropertiesFrontend/src/features/properties/components/PropertyFilters.tsx:203-260 | an empty or unreadable box clears its bound |
| PropertyFiltersComponent.FiltersPanel.constructor | MillionPropertiesFrontend/src/features/properties/components/PropertyFilters.tsx:28-37 | expanded, the incoming location, and slider ranges from the incoming bounds or the ends |
| PropertyFiltersComponent.FiltersPanel.UpdateFilter | MillionPropertiesFrontend/src/features/properties/components/PropertyFilters.tsx:39-41 | emits the incoming filters with the one key changed |
| PropertyFiltersComponent.FiltersPanel.HandleLocationInput | MillionPropertiesFrontend/src/features/properties/components/PropertyFilters.tsx:128 | typing changes only the local text |
| PropertyFiltersComponent.FiltersPanel.HandleLocationSearch | MillionPropertiesFrontend/src/features/properties/components/PropertyFilters.tsx:45-47 | emits the typed location |
| PropertyFiltersComponent.FiltersPanel.HandleLocationKeyDown | MillionPropertiesFrontend/src/features/properties/components/PropertyFilters.tsx:129 | only Enter emits the typed location |
| PropertyFiltersComponent.FiltersPanel.HandlePriceRangeChange | MillionPropertiesFrontend/src/features/properties/components/PropertyFilters.tsx:49-54 | keeps the range and emits two records from the incoming filters, the second with the old lower bound |
| PropertyFiltersComponent.FiltersPanel.HandleYearRangeChange | MillionPropertiesFrontend/src/features/properties/components/PropertyFilters.tsx:56-61 | keeps the range and emits two records from the incoming filters |
| PropertyFiltersComponent.FiltersPanel.HandleMinPriceInput | MillionPropertiesFrontend/src/features/properties/components/PropertyFilters.tsx:203-207 | the range takes the entry and the record its bound |
| PropertyFiltersComponent.FiltersPanel.HandleMaxPriceInput | MillionPropertiesFrontend/src/features/properties/components/PropertyFilters.tsx:213-217 | the range takes the entry and the record its bound |
| PropertyFiltersComponent.FiltersPanel.HandleMinYearInput | MillionPropertiesFrontend/src/features/properties/components/PropertyFilters.tsx:246-250 | the range takes the entry and the record its bound |
| PropertyFiltersComponent.FiltersPanel.HandleMaxYearInput | MillionPropertiesFrontend/src/features/properties/components/PropertyFilters.tsx:256-260 | the range takes the entry and the record its bound |
| PropertyFiltersComponent.FiltersPanel.HandleSearchChange | MillionPropertiesFrontend/src/features/properties/components/PropertyFilters.tsx:117 | emits the search text, or undefined for an empty box |
| PropertyFiltersComponent.FiltersPanel.HandleSortByChange | MillionPropertiesFrontend/src/features/properties/components/PropertyFilters.tsx:143-153 | emits the chosen kind |
| PropertyFiltersComponent.FiltersPanel.HandleSortOrderChange | MillionPropertiesFrontend/src/features/properties/components/PropertyFilters.tsx:162-169 | emits the chosen order |
| PropertyFiltersComponent.FiltersPanel.HandleRoomsChange | MillionPropertiesFrontend/src/features/properties/components/PropertyFilters.tsx:272-302 | "any" emits no bound; a count emits that number |
| PropertyFiltersComponent.FiltersPanel.ToggleExpanded | MillionPropertiesFrontend/src/features/properties/components/PropertyFilters.tsx:96 | flips the expanded flag and emits nothing |
| PropertyCard.ImageUrl | MillionPropertiesFrontend/src/features/properties/components/PropertyCard.tsx:35-36 | the first image's file on the image host, or the placeholder when there is no first image or its file is empty |
| PropertyCard.ImageUrlUsesFirstOnly | MillionPropertiesFrontend/src/features/properties/components/PropertyCard.tsx:35 | images after the first never change the picture |
| PropertyCard.ImageUrlFromHost | MillionPropertiesFrontend/src/features/properties/components/PropertyCard.tsx:36 | the picture is on the image host exactly when the first image has a file |
| PropertyCard.NoEnabledImageShowsPlaceholder | MillionPropertiesFrontend/src/features/properties/components/PropertyCard.tsx:36 | a property with no enabled image shows the placeholder |
| PropertyCard.Latest | MillionPropertiesFrontend/src/features/properties/components/PropertyCard.tsx:106-110 | the latest line shows exactly when there are traces, with the first one's name |
| PropertyCard.AvatarSource | MillionPropertiesFrontend/src/features/properties/components/PropertyCard.tsx:121 | the avatar is the photo on the avatar host, and none exactly when the photo is empty |
| PropertyCard.FirstLetters | MillionPropertiesFrontend/src/features/properties/components/PropertyCard.tsx:125 | never more code units than parts: one UTF-16 code unit per non-empty part |
| PropertyCard.FirstLettersOfWords | MillionPropertiesFrontend/src/features/properties/components/PropertyCard.tsx:125 | for non-empty parts, one code unit per part: the first UTF-16 code unit of each, as JavaScript's `n[0]` reads it |
| PropertyCard.InitialsOfWords | MillionPropertiesFrontend/src/features/properties/components/PropertyCard.tsx:125 | a name of k words joined by single spaces has k initials, each word's first UTF-16 code unit: the first letter itself below U+10000, and only its high surrogate above |
| Text.SplitOfJoin | MillionPropertiesFrontend/src/features/properties/components/PropertyCard.tsx:125 | splitting parts joined by a separator they do not contain gives the parts back |
| PropertyCard.AstralInitialIsHalf | MillionPropertiesFrontend/src/features/properties/components/PropertyCard.tsx:125 | the owner "😀 Smith" gets the lone high surrogate U+D83D and then 'S' as initials |
| Text.CodeUnitsRoundTrip | MillionPropertiesFrontend/src/features/properties/components/PropertyCard.tsx:125 | a character is one code unit below U+10000 and a high and a low surrogate above, and decoding those units gives the character back |
| PropertyCard.OwnerBlockOf | MillionPropertiesFrontend/src/features/properties/components/PropertyCard.tsx:117-131 | the owner block shows exactly when there is an owner, with its name, address, avatar and initials (the code units `Initials` gives) |
| PropertyCard.RenderCard | MillionPropertiesFrontend/src/features/properties/components/PropertyCard.tsx:35-131 | the card links to the property's page and shows its fields, first picture, latest trace and owner block |
| PropertyCard.OwnerBlockShown | MillionPropertiesFrontend/src/features/properties/components/PropertyCard.tsx:117 | a card has an owner block exactly when some stored owner has the property's owner id |

## Left out

- Patterns are matched as literal, case-insensitive substrings. MongoDB would read the name, address and code filters as regular expressions, so a pattern containing metacharacters behaves differently there.
- Lower-casing covers the letters A to Z only. Culture-specific and non-ASCII case mapping is not modelled.
- Prices are integers. `decimal` fractions, fractional JavaScript numbers and the `double` conversion inside `Math.Ceiling` are not modelled.
- The store is taken to keep `Price` as a BSON number, so the price bounds and the price sort compare numerically. The `Property` document class, which decides how `decimal` is stored, is not part of this model.
- Dates are integer instants. Time zones and `DateTime` parsing are not modelled.
- PropertyRepository.GetFilteredAsync: requires page ≥ 1 and pageSize ≥ 1. The controller calls it only after the `[Range]` checks have passed (`WithinDeclaredBounds`).
- PropertyRepository.GetFilteredAsync: does not model the 32-bit overflow of `(page - 1) * pageSize`. The `[Range]` bounds admit it: any page with `(page - 1) * pageSize > 2^31 - 1` passes them (at size 100, every page above 21474837). For page 21474838 at size 100, C# wraps the skip to -2147483596 and hands that negative skip to the driver. The model computes the skip unbounded instead, and answers such a request with an empty page.
- The casts `(int)totalCount` and the 32-bit `Page` are modelled as unbounded integers.
- Ties in the sort are not modelled. The model orders equal keys by insertion sort, without tie-breaking. The store's order for equal keys is unspecified, so only sortedness and permutation are proved.
- The count and the page query run separately against a live store. The model reads one snapshot, so writes landing between the two queries are not modelled.
- MongoDB, the HTTP layer, `fetch`, its timeout and the network are out of scope. Their outcome is a parameter:
  - `failure` for the controller;
  - `outcome` for the hooks and the service.
- How model binding parses and rejects malformed numbers is not modelled; `Bind` takes typed parameters.
- Default arguments are passed explicitly: `useProperties(initialFilters = {}, initialPage = 1, initialPageSize = 12)`, `fetchProperties(filters = {}, page = 1, pageSize = 12)`, `usePropertyFilters(initialFilters = {})` and `getProperties(filters = {}, page = 1, pageSize = 12)` become members that take every argument. A call without arguments is the call with those values.
- Query strings carry no percent-encoding. The text round trip is proved only for names and values without `&`, and names without `=`.
- Number parsing:
  - `Number(text)` in the full panel's boxes is a parameter (`entered`);
  - `parseInt` is modelled for decimal integers only.
- `console.error` is not modelled.
- React is not modelled:
  - rendering, timers, JSX and styling, including `formatCurrency`, the price badge, the favourite, share and view buttons, and the skeleton markup;
  - the mount effect of `useProperties`, except that it equals `Refetch` from the initial state;
  - the batching of state updates.
- UseProperties.PropertiesState.FetchProperties: a fetch that settles after a newer one is not modelled. Each fetch is modelled as settling before the next one starts.
- The service's create, update and delete calls, `getProperty` and the other controllers are out of scope. They pass requests through to the API and do not touch the search path.
- The select option lists become preconditions of the handlers:
  - `HandleSortByChange` in the compact panel accepts price, date created and date updated;
  - `HandleRoomsChange` accepts `any`, or `1` to `5` for bedrooms and `1` to `4` for bathrooms.
