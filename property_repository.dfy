/**
 * `PropertyRepository.GetFilteredAsync`: turns a search request into store
 * predicates, resolves an owner-name search to owner ids, counts the matches,
 * sorts them and cuts one page out of the sorted matches.
 *
 * The store is a fixed snapshot (`Models.Store`); its `Find`, `Count` and
 * `Sort` are the functions `Find`, `|Find(..)|` and `Ordered` below.
 */
module PropertyRepository {
  import opened Wrappers
  import opened Text
  import opened Models
  import opened FilterDto
  import opened Sorting

  /** One predicate built with `Builders<Property>.Filter`. A pattern is the
      user's text, matched case-insensitively as a literal substring. */
  datatype Clause =
    | NameLike(pattern: string)
    | AddressLike(pattern: string)
    | PriceAtLeast(price: int)
    | PriceAtMost(price: int)
    | YearAtLeast(year: int)
    | YearAtMost(year: int)
    | OwnerIdIs(id: string)
    | CodeLike(pattern: string)
    | CreatedAtLeast(instant: int)
    | CreatedAtMost(instant: int)
    | OwnerIdIn(ids: seq<string>)

  /** The combined filter handed to the store: `Filter.Empty`, one predicate
      used alone, or `Filter.And` of a list. */
  datatype Query = MatchAll | Single(clause: Clause) | And(clauses: FilterList)

  /** The `List<FilterDefinition<Property>>` the repository grows with `Add`. */
  datatype FilterList = NoFilters | Add(init: FilterList, last: Clause)
  {
    /** `filters.Count`. */
    function Count(): (n: nat)
      ensures n == 0 <==> this == NoFilters
    {
      match this
      case NoFilters => 0
      case Add(init, _) => init.Count() + 1
    }
  }

  predicate Holds(c: Clause, p: Property) {
    match c
    case NameLike(s) => ContainsIgnoreCase(p.name, s)
    case AddressLike(s) => ContainsIgnoreCase(p.address, s)
    case PriceAtLeast(v) => p.price >= v
    case PriceAtMost(v) => p.price <= v
    case YearAtLeast(v) => p.year >= v
    case YearAtMost(v) => p.year <= v
    case OwnerIdIs(id) => p.ownerId == id
    case CodeLike(s) => ContainsIgnoreCase(p.codeInternal, s)
    case CreatedAtLeast(t) => p.createdAt >= t
    case CreatedAtMost(t) => p.createdAt <= t
    case OwnerIdIn(ids) => p.ownerId in ids
  }

  /** Every predicate of the list holds (`Filter.And`). */
  predicate AllHold(cs: FilterList, p: Property) {
    match cs
    case NoFilters => true
    case Add(init, c) => AllHold(init, p) && Holds(c, p)
  }

  predicate Selects(q: Query, p: Property) {
    match q
    case MatchAll => true
    case Single(c) => Holds(c, p)
    case And(cs) => AllHold(cs, p)
  }

  /** The store's `Find(q)`: the selected documents in store order. */
  function Find(props: seq<Property>, q: Query): (r: seq<Property>)
    ensures |r| <= |props|
    ensures forall p :: p in r <==> p in props && Selects(q, p)
  {
    if props == [] then []
    else (if Selects(q, props[0]) then [props[0]] else []) + Find(props[1..], q)
  }

  /** The owner-name lookup: the ids of the owners whose lower-cased name
      contains the lower-cased text, in store order. */
  function OwnerIdsNamed(owners: seq<Owner>, text: string): (ids: seq<string>)
    ensures forall id :: id in ids <==> exists o :: o in owners && o.id == id && ContainsIgnoreCase(o.name, text)
  {
    if owners == [] then []
    else
      (if ContainsIgnoreCase(owners[0].name, text) then [owners[0].id] else [])
      + OwnerIdsNamed(owners[1..], text)
  }

  // ---------------------------------------------------------------------
  // What a request means, independently of how the query is assembled.

  /** A text filter takes part only when it is not null and not white space. */
  predicate Present(s: Option<string>) {
    !IsNullOrWhiteSpace(s)
  }

  /** The name and address contain the given texts. */
  predicate TextMatches(f: PropertyFilterDto, p: Property) {
    && (Present(f.name) ==> ContainsIgnoreCase(p.name, f.name.value))
    && (Present(f.address) ==> ContainsIgnoreCase(p.address, f.address.value))
  }

  /** The price lies within the given bounds, both inclusive. */
  predicate PriceInRange(f: PropertyFilterDto, p: Property) {
    && (f.minPrice.Some? ==> p.price >= f.minPrice.value)
    && (f.maxPrice.Some? ==> p.price <= f.maxPrice.value)
  }

  /** The year lies within the given bounds, both inclusive. */
  predicate YearInRange(f: PropertyFilterDto, p: Property) {
    && (f.minYear.Some? ==> p.year >= f.minYear.value)
    && (f.maxYear.Some? ==> p.year <= f.maxYear.value)
  }

  /** The owner id is the given one and the internal code contains the given text. */
  predicate OwnerAndCodeMatch(f: PropertyFilterDto, p: Property) {
    && (Present(f.ownerId) ==> p.ownerId == f.ownerId.value)
    && (Present(f.codeInternal) ==> ContainsIgnoreCase(p.codeInternal, f.codeInternal.value))
  }

  /** The creation instant lies within the given bounds, both inclusive. */
  predicate CreatedInRange(f: PropertyFilterDto, p: Property) {
    && (f.createdAfter.Some? ==> p.createdAt >= f.createdAfter.value)
    && (f.createdBefore.Some? ==> p.createdAt <= f.createdBefore.value)
  }

  /** The conditions on the property's own fields. */
  predicate MatchesFields(f: PropertyFilterDto, p: Property) {
    TextMatches(f, p) && PriceInRange(f, p) && YearInRange(f, p) && OwnerAndCodeMatch(f, p) && CreatedInRange(f, p)
  }

  /** Some owner whose name contains `text` owns `p`. */
  predicate OwnedByNamed(owners: seq<Owner>, text: string, p: Property) {
    exists o :: o in owners && o.id == p.ownerId && ContainsIgnoreCase(o.name, text)
  }

  /** A property answers the request: every given condition holds of it. */
  predicate Matches(owners: seq<Owner>, f: PropertyFilterDto, p: Property) {
    MatchesFields(f, p) && (Present(f.ownerName) ==> OwnedByNamed(owners, f.ownerName.value, p))
  }

  /** The matching properties in store order. */
  function Selected(props: seq<Property>, owners: seq<Owner>, f: PropertyFilterDto): (r: seq<Property>)
    ensures |r| <= |props|
    ensures forall p :: p in r <==> p in props && Matches(owners, f, p)
  {
    if props == [] then []
    else (if Matches(owners, f, props[0]) then [props[0]] else []) + Selected(props[1..], owners, f)
  }

  // ---------------------------------------------------------------------
  // Sorting.

  datatype SortKey = ByName | ByPrice | ByYear | ByAddress | ByCreatedAt

  /** The `switch` on the lower-cased sort field; anything unrecognised
      (including "createdat") sorts on the creation instant. */
  function SortKeyOf(sortBy: string): SortKey {
    var s := ToLower(sortBy);
    if s == "name" then ByName
    else if s == "price" then ByPrice
    else if s == "year" then ByYear
    else if s == "address" then ByAddress
    else ByCreatedAt
  }

  /** Ascending only for "asc" in any casing; everything else is descending. */
  predicate IsAscending(sortDirection: string) {
    ToLower(sortDirection) == "asc"
  }

  predicate KeyLe(key: SortKey, a: Property, b: Property) {
    match key
    case ByName => StrLe(a.name, b.name)
    case ByPrice => a.price <= b.price
    case ByYear => a.year <= b.year
    case ByAddress => StrLe(a.address, b.address)
    case ByCreatedAt => a.createdAt <= b.createdAt
  }

  /** `a` may come before `b` in the requested order. */
  predicate Precedes(key: SortKey, ascending: bool, a: Property, b: Property) {
    if ascending then KeyLe(key, a, b) else KeyLe(key, b, a)
  }

  predicate SortedBy(xs: seq<Property>, key: SortKey, ascending: bool) {
    forall i, j :: 0 <= i < j < |xs| ==> Precedes(key, ascending, xs[i], xs[j])
  }

  lemma PrecedesTotal(key: SortKey, ascending: bool, a: Property, b: Property)
    ensures Precedes(key, ascending, a, b) || Precedes(key, ascending, b, a)
  {
    match key
    case ByName => StrLeTotal(a.name, b.name);
    case ByAddress => StrLeTotal(a.address, b.address);
    case _ =>
  }

  lemma PrecedesTransitive(key: SortKey, ascending: bool, a: Property, b: Property, c: Property)
    requires Precedes(key, ascending, a, b) && Precedes(key, ascending, b, c)
    ensures Precedes(key, ascending, a, c)
  {
    match key
    case ByName =>
      if ascending { StrLeTransitive(a.name, b.name, c.name); } else { StrLeTransitive(c.name, b.name, a.name); }
    case ByAddress =>
      if ascending { StrLeTransitive(a.address, b.address, c.address); } else { StrLeTransitive(c.address, b.address, a.address); }
    case _ =>
  }

  function Comparator(key: SortKey, ascending: bool): (Property, Property) -> bool {
    (a: Property, b: Property) => Precedes(key, ascending, a, b)
  }

  /** The store's sort of `xs` on `key` in the given direction. */
  function Ordered(xs: seq<Property>, key: SortKey, ascending: bool): seq<Property> {
    InsertionSort(xs, Comparator(key, ascending))
  }

  /** The sort yields a permutation of its input in the requested order. */
  lemma OrderedSorted(xs: seq<Property>, key: SortKey, ascending: bool)
    ensures SortedBy(Ordered(xs, key, ascending), key, ascending)
    ensures multiset(Ordered(xs, key, ascending)) == multiset(xs)
  {
    var le := Comparator(key, ascending);
    var s := set i | 0 <= i < |xs| :: xs[i];
    forall a, b | a in s && b in s ensures le(a, b) || le(b, a) {
      PrecedesTotal(key, ascending, a, b);
    }
    forall a, b, c | a in s && b in s && c in s && le(a, b) && le(b, c) ensures le(a, c) {
      PrecedesTransitive(key, ascending, a, b, c);
    }
    InsertionSortCorrect(xs, le, s);
  }

  // ---------------------------------------------------------------------
  // Page window.

  function Min(a: int, b: int): int { if a <= b then a else b }
  function Max(a: int, b: int): int { if a >= b then a else b }

  /** `Skip(skip).Limit(limit)`: at most `limit` elements from offset `skip`. */
  function Window(xs: seq<Property>, skip: nat, limit: nat): (w: seq<Property>)
    ensures |w| == Min(limit, Max(0, |xs| - skip))
    ensures forall k :: 0 <= k < |w| ==> w[k] == xs[skip + k]
  {
    if skip >= |xs| then [] else xs[skip..Min(skip + limit, |xs|)]
  }

  /** The page a request asks for: the sorted matches from offset
      (page - 1) * pageSize, at most pageSize of them. */
  function PageOf(store: Store, f: PropertyFilterDto): seq<Property>
    requires f.page >= 1 && f.pageSize >= 1
  {
    Page(Selected(store.properties, store.owners, f), SortKeyOf(f.sortBy), IsAscending(f.sortDirection), f.page, f.pageSize)
  }

  /** Page `page` of `found` once sorted, `pageSize` to a page. */
  function Page(found: seq<Property>, key: SortKey, ascending: bool, page: int, pageSize: int): seq<Property>
    requires page >= 1 && pageSize >= 1
  {
    Window(Ordered(found, key, ascending), (page - 1) * pageSize, pageSize)
  }

  // ---------------------------------------------------------------------
  // Query assembly and its meaning.

  /** `filters.Add(c)` when `present` holds. */
  function AddIf(cs: FilterList, present: bool, c: Clause): FilterList {
    if present then Add(cs, c) else cs
  }

  /** `cs` followed by the name and address text filters that are given; a default stands in for an
      absent value and is never added. */
  function TextFilters(cs: FilterList, f: PropertyFilterDto): FilterList {
    AddIf(AddIf(cs, Present(f.name), NameLike(f.name.GetOr(""))), Present(f.address), AddressLike(f.address.GetOr("")))
  }

  lemma TextFiltersMeaning(cs: FilterList, f: PropertyFilterDto, p: Property)
    ensures AllHold(TextFilters(cs, f), p) <==> AllHold(cs, p) && TextMatches(f, p)
  {
  }

  /** `cs` followed by the price bounds that are given; a default stands in for an
      absent value and is never added. */
  function PriceFilters(cs: FilterList, f: PropertyFilterDto): FilterList {
    AddIf(AddIf(cs, f.minPrice.Some?, PriceAtLeast(f.minPrice.GetOr(0))), f.maxPrice.Some?, PriceAtMost(f.maxPrice.GetOr(0)))
  }

  lemma PriceFiltersMeaning(cs: FilterList, f: PropertyFilterDto, p: Property)
    ensures AllHold(PriceFilters(cs, f), p) <==> AllHold(cs, p) && PriceInRange(f, p)
  {
  }

  /** `cs` followed by the year bounds that are given; a default stands in for an
      absent value and is never added. */
  function YearFilters(cs: FilterList, f: PropertyFilterDto): FilterList {
    AddIf(AddIf(cs, f.minYear.Some?, YearAtLeast(f.minYear.GetOr(0))), f.maxYear.Some?, YearAtMost(f.maxYear.GetOr(0)))
  }

  lemma YearFiltersMeaning(cs: FilterList, f: PropertyFilterDto, p: Property)
    ensures AllHold(YearFilters(cs, f), p) <==> AllHold(cs, p) && YearInRange(f, p)
  {
  }

  /** `cs` followed by the owner-id and internal-code filters that are given; a default stands in for an
      absent value and is never added. */
  function OwnerAndCodeFilters(cs: FilterList, f: PropertyFilterDto): FilterList {
    AddIf(AddIf(cs, Present(f.ownerId), OwnerIdIs(f.ownerId.GetOr(""))), Present(f.codeInternal), CodeLike(f.codeInternal.GetOr("")))
  }

  lemma OwnerAndCodeFiltersMeaning(cs: FilterList, f: PropertyFilterDto, p: Property)
    ensures AllHold(OwnerAndCodeFilters(cs, f), p) <==> AllHold(cs, p) && OwnerAndCodeMatch(f, p)
  {
  }

  /** `cs` followed by the creation-date bounds that are given; a default stands in for an
      absent value and is never added. */
  function CreatedFilters(cs: FilterList, f: PropertyFilterDto): FilterList {
    AddIf(AddIf(cs, f.createdAfter.Some?, CreatedAtLeast(f.createdAfter.GetOr(0))), f.createdBefore.Some?, CreatedAtMost(f.createdBefore.GetOr(0)))
  }

  lemma CreatedFiltersMeaning(cs: FilterList, f: PropertyFilterDto, p: Property)
    ensures AllHold(CreatedFilters(cs, f), p) <==> AllHold(cs, p) && CreatedInRange(f, p)
  {
  }

  /** The field predicates the repository adds for a request, in its order. */
  function FieldClauses(f: PropertyFilterDto): FilterList {
    CreatedFilters(OwnerAndCodeFilters(YearFilters(PriceFilters(TextFilters(NoFilters, f), f), f), f), f)
  }

  /** The predicate list holds of a property exactly when its field
      conditions do. */
  lemma FieldClausesMeaning(f: PropertyFilterDto, p: Property)
    ensures AllHold(FieldClauses(f), p) <==> MatchesFields(f, p)
  {
    var s1 := TextFilters(NoFilters, f);
    var s2 := PriceFilters(s1, f);
    var s3 := YearFilters(s2, f);
    var s4 := OwnerAndCodeFilters(s3, f);
    TextFiltersMeaning(NoFilters, f, p);
    PriceFiltersMeaning(s1, f, p);
    YearFiltersMeaning(s2, f, p);
    OwnerAndCodeFiltersMeaning(s3, f, p);
    CreatedFiltersMeaning(s4, f, p);
  }

  /** The combined filter: the field predicates, joined with the owner-id
      predicate when an owner name was resolved. */
  function CombinedQuery(f: PropertyFilterDto, owners: seq<Owner>): Query {
    Combine(FieldClauses(f), OwnerFilter(f, owners))
  }

  /** The owner-id predicate an owner-name search resolves to. */
  function OwnerFilter(f: PropertyFilterDto, owners: seq<Owner>): Option<Clause> {
    if Present(f.ownerName) then Some(OwnerIdIn(OwnerIdsNamed(owners, f.ownerName.value))) else None
  }

  /** How the field predicates and the owner predicate are joined. */
  function Combine(fields: FilterList, ownerFilter: Option<Clause>): Query {
    if fields.Count() > 0 && ownerFilter.Some? then And(Add(fields, ownerFilter.value))
    else if fields.Count() > 0 then And(fields)
    else if ownerFilter.Some? then Single(ownerFilter.value)
    else MatchAll
  }

  /** The combined filter selects exactly the properties that answer the
      request; with no predicate at all it selects everything. */
  lemma CombinedQueryMeaning(f: PropertyFilterDto, owners: seq<Owner>, p: Property)
    ensures Selects(CombinedQuery(f, owners), p) <==> Matches(owners, f, p)
  {
    FieldClausesMeaning(f, p);
    var fields := FieldClauses(f);
    if Present(f.ownerName) {
      var text := f.ownerName.value;
      var ownerIn := OwnerIdIn(OwnerIdsNamed(owners, text));
      if OwnedByNamed(owners, text, p) {
        var o :| o in owners && o.id == p.ownerId && ContainsIgnoreCase(o.name, text);
        assert p.ownerId in OwnerIdsNamed(owners, text);
      }
    }
  }

  /** A filter that agrees with the request on every stored property finds
      exactly the matching properties. */
  lemma {:induction false} FindAgrees(props: seq<Property>, owners: seq<Owner>, f: PropertyFilterDto, q: Query)
    requires forall p :: p in props ==> (Selects(q, p) <==> Matches(owners, f, p))
    ensures Find(props, q) == Selected(props, owners, f)
  {
    if props != [] {
      FindAgrees(props[1..], owners, f, q);
    }
  }

  /** With an owner name given, every match is owned by a resolved owner. */
  lemma {:induction false} SelectedOwnedByResolved(props: seq<Property>, owners: seq<Owner>, f: PropertyFilterDto)
    requires Present(f.ownerName)
    ensures forall p :: p in Selected(props, owners, f) ==> p.ownerId in OwnerIdsNamed(owners, f.ownerName.value)
  {
    forall p | p in Selected(props, owners, f) ensures p.ownerId in OwnerIdsNamed(owners, f.ownerName.value) {
      var o :| o in owners && o.id == p.ownerId && ContainsIgnoreCase(o.name, f.ownerName.value);
    }
  }

  /** When an owner name is given and no owner's name contains it, nothing
      can match. */
  lemma NoNamedOwnerSelectsNothing(props: seq<Property>, owners: seq<Owner>, f: PropertyFilterDto)
    requires Present(f.ownerName) && OwnerIdsNamed(owners, f.ownerName.value) == []
    ensures Selected(props, owners, f) == []
  {
    SelectedOwnedByResolved(props, owners, f);
    if Selected(props, owners, f) != [] {
      assert Selected(props, owners, f)[0] in Selected(props, owners, f);
    }
  }

  /** A white-space owner name (by .NET's Unicode rules, so also U+3000
      and the other wide spaces) is skipped: the request selects what it
      would select without one. */
  lemma {:induction false} BlankOwnerNameIgnored(props: seq<Property>, owners: seq<Owner>, f: PropertyFilterDto)
    requires f.ownerName.Some? && AllWhiteSpace(f.ownerName.value)
    ensures Selected(props, owners, f) == Selected(props, owners, f.(ownerName := None))
  {
    if props != [] {
      BlankOwnerNameIgnored(props[1..], owners, f);
    }
  }

  /** The ideographic space U+3000 is blank text, so an owner name made of
      it leaves the owner filter out rather than resolving no owner. */
  lemma IdeographicSpaceOwnerNameIgnored(props: seq<Property>, owners: seq<Owner>, f: PropertyFilterDto)
    requires f.ownerName == Some("\U{3000}")
    ensures !Present(f.ownerName)
    ensures Selected(props, owners, f) == Selected(props, owners, f.(ownerName := None))
  {
    assert AllWhiteSpace(f.ownerName.value) by {
      assert f.ownerName.value[1..] == [];
    }
    BlankOwnerNameIgnored(props, owners, f);
  }

  /** An owner-name search that resolves to no owner gives an empty page
      and a zero count, which is what the early return produces. */
  lemma UnresolvedOwnerGivesEmptyPage(store: Store, f: PropertyFilterDto)
    requires f.page >= 1 && f.pageSize >= 1
    requires Present(f.ownerName) && OwnerIdsNamed(store.owners, f.ownerName.value) == []
    ensures PageOf(store, f) == [] && |Selected(store.properties, store.owners, f)| == 0
  {
    NoNamedOwnerSelectsNothing(store.properties, store.owners, f);
    PageLength(store, f);
  }

  /** A window of a sorted list is sorted, holds only listed elements, and
      is as long as the list leaves after the offset. */
  lemma WindowOfOrdered(found: seq<Property>, key: SortKey, ascending: bool, skip: nat, limit: nat)
    ensures SortedBy(Window(Ordered(found, key, ascending), skip, limit), key, ascending)
    ensures forall p :: p in Window(Ordered(found, key, ascending), skip, limit) ==> p in found
    ensures |Window(Ordered(found, key, ascending), skip, limit)| == Min(limit, Max(0, |found| - skip))
  {
    var sorted := Ordered(found, key, ascending);
    OrderedSorted(found, key, ascending);
    assert |sorted| == |found| by { assert |multiset(sorted)| == |multiset(found)|; }
    var page := Window(sorted, skip, limit);
    forall i, j | 0 <= i < j < |page| ensures Precedes(key, ascending, page[i], page[j]) {
      assert page[i] == sorted[skip + i] && page[j] == sorted[skip + j];
    }
    forall p | p in page ensures p in found {
      var k :| 0 <= k < |page| && page[k] == p;
      assert sorted[skip + k] == p;
      assert p in multiset(found);
    }
  }

  /** A page is sorted, holds only found properties, and holds pageSize of
      them or what is left after the offset. */
  lemma PageFacts(found: seq<Property>, key: SortKey, ascending: bool, page: int, pageSize: int)
    requires page >= 1 && pageSize >= 1
    ensures SortedBy(Page(found, key, ascending, page, pageSize), key, ascending)
    ensures forall p :: p in Page(found, key, ascending, page, pageSize) ==> p in found
    ensures |Page(found, key, ascending, page, pageSize)| == Min(pageSize, Max(0, |found| - (page - 1) * pageSize))
  {
    WindowOfOrdered(found, key, ascending, (page - 1) * pageSize, pageSize);
  }

  /** The page of a request is sorted by the requested key and direction. */
  lemma PageSorted(store: Store, f: PropertyFilterDto)
    requires f.page >= 1 && f.pageSize >= 1
    ensures SortedBy(PageOf(store, f), SortKeyOf(f.sortBy), IsAscending(f.sortDirection))
  {
    PageFacts(Selected(store.properties, store.owners, f), SortKeyOf(f.sortBy), IsAscending(f.sortDirection), f.page, f.pageSize);
  }

  /** Every property on the page is stored and answers the request. */
  lemma PageMatches(store: Store, f: PropertyFilterDto)
    requires f.page >= 1 && f.pageSize >= 1
    ensures forall p :: p in PageOf(store, f) ==> p in store.properties && Matches(store.owners, f, p)
  {
    PageFacts(Selected(store.properties, store.owners, f), SortKeyOf(f.sortBy), IsAscending(f.sortDirection), f.page, f.pageSize);
  }

  /** The page holds pageSize matches, or what is left after the offset. */
  lemma PageLength(store: Store, f: PropertyFilterDto)
    requires f.page >= 1 && f.pageSize >= 1
    ensures |PageOf(store, f)| == Min(f.pageSize, Max(0, |Selected(store.properties, store.owners, f)| - (f.page - 1) * f.pageSize))
  {
    PageFacts(Selected(store.properties, store.owners, f), SortKeyOf(f.sortBy), IsAscending(f.sortDirection), f.page, f.pageSize);
  }

  /** Adds the name and address text filters. */
  method AddTextFilters(filters: FilterList, f: PropertyFilterDto) returns (r: FilterList)
    ensures r == TextFilters(filters, f)
  {
    r := filters;
    if !IsNullOrWhiteSpace(f.name) {
      r := Add(r, NameLike(f.name.value));
    }
    if !IsNullOrWhiteSpace(f.address) {
      r := Add(r, AddressLike(f.address.value));
    }
  }

  /** Adds the price bounds. */
  method AddPriceFilters(filters: FilterList, f: PropertyFilterDto) returns (r: FilterList)
    ensures r == PriceFilters(filters, f)
  {
    r := filters;
    if f.minPrice.Some? {
      r := Add(r, PriceAtLeast(f.minPrice.value));
    }
    if f.maxPrice.Some? {
      r := Add(r, PriceAtMost(f.maxPrice.value));
    }
  }

  /** Adds the year bounds. */
  method AddYearFilters(filters: FilterList, f: PropertyFilterDto) returns (r: FilterList)
    ensures r == YearFilters(filters, f)
  {
    r := filters;
    if f.minYear.Some? {
      r := Add(r, YearAtLeast(f.minYear.value));
    }
    if f.maxYear.Some? {
      r := Add(r, YearAtMost(f.maxYear.value));
    }
  }

  /** Adds the owner-id and internal-code filters. */
  method AddOwnerAndCodeFilters(filters: FilterList, f: PropertyFilterDto) returns (r: FilterList)
    ensures r == OwnerAndCodeFilters(filters, f)
  {
    r := filters;
    if !IsNullOrWhiteSpace(f.ownerId) {
      r := Add(r, OwnerIdIs(f.ownerId.value));
    }
    if !IsNullOrWhiteSpace(f.codeInternal) {
      r := Add(r, CodeLike(f.codeInternal.value));
    }
  }

  /** Adds the creation-date bounds. */
  method AddCreatedFilters(filters: FilterList, f: PropertyFilterDto) returns (r: FilterList)
    ensures r == CreatedFilters(filters, f)
  {
    r := filters;
    if f.createdAfter.Some? {
      r := Add(r, CreatedAtLeast(f.createdAfter.value));
    }
    if f.createdBefore.Some? {
      r := Add(r, CreatedAtMost(f.createdBefore.value));
    }
  }

  /** The field predicates, added in the order the repository adds them. */
  method BuildFieldFilters(f: PropertyFilterDto) returns (filters: FilterList)
    ensures filters == FieldClauses(f)
  {
    filters := AddTextFilters(NoFilters, f);
    filters := AddPriceFilters(filters, f);
    filters := AddYearFilters(filters, f);
    filters := AddOwnerAndCodeFilters(filters, f);
    filters := AddCreatedFilters(filters, f);
  }

  /** Unless an owner name resolves to no owner, the combined filter finds
      exactly the matching properties. */
  lemma CombinedQueryFinds(store: Store, f: PropertyFilterDto)
    ensures Find(store.properties, CombinedQuery(f, store.owners)) == Selected(store.properties, store.owners, f)
  {
    var q := CombinedQuery(f, store.owners);
    forall p | p in store.properties
      ensures Selects(q, p) <==> Matches(store.owners, f, p)
    {
      CombinedQueryMeaning(f, store.owners, p);
    }
    FindAgrees(store.properties, store.owners, f, q);
  }

  /** The repository's `SortBy` switch, written as statements; `SortKeyOf`
      is the same choice as a function, and the page's order is proved
      about that. */
  method ChooseSortKey(sortBy: string) returns (key: SortKey)
    ensures key == SortKeyOf(sortBy)
  {
    var s := ToLower(sortBy);
    if s == "name" {
      key := ByName;
    } else if s == "price" {
      key := ByPrice;
    } else if s == "year" {
      key := ByYear;
    } else if s == "address" {
      key := ByAddress;
    } else {
      key := ByCreatedAt;
    }
  }

  /** The repository's choice of `Filter.And`, the single owner predicate or
      `Filter.Empty`, written as statements; `Combine` is the same join as a
      function, and its meaning is proved by `CombinedQueryMeaning`. */
  method CombineFilters(filters: FilterList, ownerNameFilter: Option<Clause>) returns (combinedFilter: Query)
    ensures combinedFilter == Combine(filters, ownerNameFilter)
  {
    var fs := filters;
    if fs.Count() > 0 && ownerNameFilter.Some? {
      fs := Add(fs, ownerNameFilter.value);
      combinedFilter := And(fs);
    } else if fs.Count() > 0 {
      combinedFilter := And(fs);
    } else if ownerNameFilter.Some? {
      combinedFilter := Single(ownerNameFilter.value);
    } else {
      combinedFilter := MatchAll;
    }
  }

  method GetFilteredAsync(store: Store, f: PropertyFilterDto) returns (properties: seq<Property>, totalCount: nat, ghost queried: bool)
    requires f.page >= 1 && f.pageSize >= 1
    ensures totalCount == |Selected(store.properties, store.owners, f)|
    ensures properties == PageOf(store, f)
    ensures !queried <==> Present(f.ownerName) && OwnerIdsNamed(store.owners, f.ownerName.value) == []
  {
    var filters := BuildFieldFilters(f);

    var ownerNameFilter: Option<Clause> := None;
    if !IsNullOrWhiteSpace(f.ownerName) {
      var ownerIds := OwnerIdsNamed(store.owners, f.ownerName.value);
      if |ownerIds| > 0 {
        ownerNameFilter := Some(OwnerIdIn(ownerIds));
      } else {
        // No owner carries that name: the result is empty.
        UnresolvedOwnerGivesEmptyPage(store, f);
        return [], 0, false;
      }
    }
    queried := true;
    assert ownerNameFilter == OwnerFilter(f, store.owners);

    var combinedFilter := CombineFilters(filters, ownerNameFilter);
    CombinedQueryFinds(store, f);
    var found := Find(store.properties, combinedFilter);
    totalCount := |found|;

    var isAscending := ToLower(f.sortDirection) == "asc";
    var sortKey := ChooseSortKey(f.sortBy);
    var skip := (f.page - 1) * f.pageSize;
    properties := Window(Ordered(found, sortKey, isAscending), skip, f.pageSize);
  }
}
