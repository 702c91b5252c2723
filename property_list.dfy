/**
 * `PropertyList`: what the list component renders for its props, the
 * "Showing X-Y of Z" summary, and the page buttons of `renderPagination`.
 *
 * The JSX itself is not modelled; a rendering is the `View` it amounts to.
 */
module PropertyList {
  import opened Wrappers
  import opened Models
  import opened FilterDto
  import opened PropertyRepository
  import opened PropertiesController

  /** The `pagination` prop. */
  datatype Pagination = Pagination(page: int, limit: int, total: int, totalPages: int)

  /** The pagination bar: Previous, the first-page button and the leading
      `...` when shown, the window of page buttons (the current one
      highlighted), the trailing `...` and the last-page button when shown,
      and Next. Previous asks for `current - 1`, Next for `current + 1`. */
  datatype Control = Control(
    current: int,
    previousDisabled: bool,
    firstButton: bool,
    leadingEllipsis: bool,
    pages: seq<int>,
    trailingEllipsis: bool,
    lastButton: bool,
    totalPages: int,
    nextDisabled: bool)

  /** The summary line above the cards. */
  datatype Summary =
    | Showing(from: int, to: int, total: int)
    | Found(count: int)

  /** What the component renders. */
  datatype View<T> =
    | ErrorAlert(message: string)
    | Skeletons(count: nat)
    | NoneFound
    | Listing(summary: Summary, cards: seq<T>, control: Option<Control>)

  /** The consecutive integers from `lo` to `hi`, none when `lo > hi`. */
  function Range(lo: int, hi: int): (r: seq<int>)
    ensures |r| == if lo <= hi then hi - lo + 1 else 0
    ensures forall k :: 0 <= k < |r| ==> r[k] == lo + k
    decreases hi - lo
  {
    if lo > hi then [] else [lo] + Range(lo + 1, hi)
  }

  /** The first page button: two before the current page, but at least 1. */
  function StartPage(page: int): int {
    Max(1, page - 2)
  }

  /** The last page button: two after the current page, but at most the
      number of pages. */
  function EndPage(page: int, totalPages: int): int {
    Min(totalPages, page + 2)
  }

  /** The bar `renderPagination` returns, or `None` for its `null`. */
  function ControlOf(pagination: Option<Pagination>): Option<Control> {
    if pagination.None? || pagination.value.totalPages <= 1 then None
    else
      var page := pagination.value.page;
      var totalPages := pagination.value.totalPages;
      var start := StartPage(page);
      var end := EndPage(page, totalPages);
      Some(Control(
        page, page == 1,
        start > 1, start > 1 && start > 2,
        Range(start, end),
        end < totalPages && end < totalPages - 1, end < totalPages,
        totalPages, page == totalPages))
  }

  /** `renderPagination`, with its loop pushing the window's page numbers. */
  method RenderPagination(pagination: Option<Pagination>) returns (control: Option<Control>)
    ensures control == ControlOf(pagination)
  {
    if pagination.None? || pagination.value.totalPages <= 1 {
      return None;
    }
    var page := pagination.value.page;
    var totalPages := pagination.value.totalPages;
    var startPage := Max(1, page - 2);
    var endPage := Min(totalPages, page + 2);
    var pages := PushPages(startPage, endPage);
    control := Some(Control(
      page, page == 1,
      startPage > 1, startPage > 1 && startPage > 2,
      pages,
      endPage < totalPages && endPage < totalPages - 1, endPage < totalPages,
      totalPages, page == totalPages));
  }

  /** The `for` loop from `startPage` to `endPage` pushing each number. */
  method PushPages(startPage: int, endPage: int) returns (pages: seq<int>)
    ensures pages == Range(startPage, endPage)
  {
    pages := [];
    var i := startPage;
    while i <= endPage
      invariant startPage <= i <= Max(startPage, endPage + 1)
      invariant |pages| == i - startPage
      invariant forall k :: 0 <= k < |pages| ==> pages[k] == startPage + k
      decreases endPage - i
    {
      pages := pages + [i];
      i := i + 1;
    }
  }

  // ---------------------------------------------------------------------
  // What the bar shows.

  /** A bar is shown exactly when there is pagination with more than one
      page. Its window is at most five consecutive pages inside 1 ..
      totalPages, and holds the current page when that is a real page. */
  lemma WindowFacts(pagination: Option<Pagination>)
    ensures ControlOf(pagination).Some? <==> pagination.Some? && pagination.value.totalPages > 1
    ensures ControlOf(pagination).Some? ==>
      var c := ControlOf(pagination).value;
      && |c.pages| <= 5
      && (forall k :: 0 <= k < |c.pages| ==> 1 <= c.pages[k] <= c.totalPages)
      && (forall k :: 0 < k < |c.pages| ==> c.pages[k] == c.pages[k - 1] + 1)
      && (1 <= c.current <= c.totalPages ==> c.current in c.pages)
  {
    if ControlOf(pagination).Some? {
      var c := ControlOf(pagination).value;
      var start := StartPage(c.current);
      if 1 <= c.current <= c.totalPages {
        assert c.pages[c.current - start] == c.current;
      }
    }
  }

  /** For a real current page, the first and last buttons never repeat a
      window button; the `...` stands exactly for pages left out between a
      first or last button and the window. */
  lemma EllipsisMeansGap(p: Pagination)
    requires p.totalPages > 1 && 1 <= p.page <= p.totalPages
    ensures ControlOf(Some(p)).Some?
    ensures ControlOf(Some(p)).value.pages != []
    ensures
      var c := ControlOf(Some(p)).value;
      var first := c.pages[0];
      var last := c.pages[|c.pages| - 1];
      && (c.firstButton <==> first > 1)
      && (c.leadingEllipsis <==> first > 2)
      && (c.lastButton <==> last < c.totalPages)
      && (c.trailingEllipsis <==> last < c.totalPages - 1)
  {
  }

  /** For a real current page, every page from 1 to totalPages is a button
      or lies behind one of the two `...`. */
  lemma EveryPageReachable(p: Pagination, n: int)
    requires p.totalPages > 1 && 1 <= p.page <= p.totalPages
    requires 1 <= n <= p.totalPages
    ensures
      var c := ControlOf(Some(p)).value;
      || (n == 1 && c.firstButton)
      || n in c.pages
      || (n == c.totalPages && c.lastButton)
      || (c.leadingEllipsis && 1 < n < c.pages[0])
      || (c.trailingEllipsis && c.pages[|c.pages| - 1] < n < c.totalPages)
  {
    EllipsisMeansGap(p);
    var c := ControlOf(Some(p)).value;
    var start := StartPage(p.page);
    if start <= n <= EndPage(p.page, p.totalPages) {
      assert c.pages[n - start] == n;
    }
  }

  /** Previous is disabled exactly on the first page and Next exactly on the
      last. */
  lemma PreviousNextDisabled(p: Pagination)
    requires p.totalPages > 1
    ensures ControlOf(Some(p)).value.previousDisabled <==> p.page == 1
    ensures ControlOf(Some(p)).value.nextDisabled <==> p.page == p.totalPages
  {
  }

  // ---------------------------------------------------------------------
  // The summary.

  /** "Showing X-Y of Z": from the first item of the page to its last. */
  function ShowingRange(p: Pagination): (r: Summary)
    ensures r.Showing? && r.total == p.total
  {
    Showing((p.page - 1) * p.limit + 1, Min(p.page * p.limit, p.total), p.total)
  }

  /** On a page that starts before the end of the matches, the summary
      counts exactly the items of the page the backend returns, and lies
      inside 1 .. total. */
  lemma ShowingCountsPage(page: int, limit: int, total: nat)
    requires page >= 1 && limit >= 1 && (page - 1) * limit < total
    ensures
      var s := ShowingRange(Pagination(page, limit, total, 0));
      && 1 <= s.from <= s.to <= total
      && s.to - s.from + 1 == Min(limit, Max(0, total - (page - 1) * limit))
  {
    assert page * limit == (page - 1) * limit + limit;
  }

  /** The summary of a non-empty page the backend answered with counts the
      page's properties. */
  lemma ShowingMatchesAnswer(store: Store, f: PropertyFilterDto)
    requires f.page >= 1 && f.pageSize >= 1
    requires Filtered(store, f).properties != []
    ensures
      var r := Filtered(store, f);
      var s := ShowingRange(Pagination(r.page, r.pageSize, r.totalCount, r.totalPages));
      s.to - s.from + 1 == |r.properties|
  {
    var count := |Selected(store.properties, store.owners, f)|;
    FilteredFaithful(store, f);
    PageLength(store, f);
    ShowingCountsPage(f.page, f.pageSize, count);
  }

  // ---------------------------------------------------------------------
  // The component.

  /** The component's output: an error wins over loading, loading over an
      empty list; a list shows every property as a card, the range or the
      count, and the bar. */
  function Render<T>(properties: seq<T>, loading: bool, error: Option<string>, pagination: Option<Pagination>): (v: View<T>)
    ensures v.ErrorAlert? <==> error.Some? && error.value != []
    ensures v.ErrorAlert? ==> v.message == error.value
    ensures v.Skeletons? <==> !v.ErrorAlert? && loading
    ensures v.Skeletons? ==> v.count == 6
    ensures v.NoneFound? <==> !v.ErrorAlert? && !loading && properties == []
    ensures v.Listing? ==> v.cards == properties && v.control == ControlOf(pagination)
    ensures v.Listing? ==> (v.summary.Showing? <==> pagination.Some?)
    ensures v.Listing? && pagination.Some? ==> v.summary == ShowingRange(pagination.value)
    ensures v.Listing? && pagination.None? ==> v.summary == Found(|properties|)
  {
    if error.Some? && error.value != [] then ErrorAlert(error.value)
    else if loading then Skeletons(6)
    else if |properties| == 0 then NoneFound
    else
      Listing(
        if pagination.Some? then ShowingRange(pagination.value) else Found(|properties|),
        properties,
        ControlOf(pagination))
  }
}
