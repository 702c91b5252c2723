/**
 * `usePropertyFilters`: the hook that holds the filter record being edited.
 * Its state is the one field `filters`; every callback replaces it.
 */
module UsePropertyFilters {
  import opened FrontendTypes

  /** `defaultFilters`: newest first. */
  const DefaultFilters: Filters := map[SortByKey := Sort(DateCreated), SortOrderKey := Order(Desc)]

  /** `{ ...base, ...top }`: every key of `top`, even one holding
      `undefined`, overrides `base`. */
  function Overlay(base: Filters, top: Filters): (r: Filters)
    ensures forall k :: k in r <==> k in base || k in top
  {
    base + top
  }

  /** A key of the overlay reads from `top` when `top` has it, and from
      `base` otherwise. */
  lemma OverlayReads(base: Filters, top: Filters, k: FilterKey)
    ensures Get(Overlay(base, top), k) == if k in top then top[k] else Get(base, k)
  {
  }

  /** The record `delete newFilters[key]` leaves: the key is gone and every
      other key is untouched. */
  function Cleared(f: Filters, k: FilterKey): (r: Filters)
    ensures k !in r && Get(r, k) == Undefined
    ensures forall j :: j != k ==> (j in r <==> j in f) && Get(r, j) == Get(f, j)
  {
    f - {k}
  }

  /** Clearing a key that is not there changes nothing, and clearing twice
      is clearing once. */
  lemma ClearedAbsent(f: Filters, k: FilterKey)
    ensures k !in f ==> Cleared(f, k) == f
    ensures Cleared(Cleared(f, k), k) == Cleared(f, k)
  {
    if k !in f {
      assert Cleared(f, k).Keys == f.Keys;
    }
    assert Cleared(Cleared(f, k), k).Keys == Cleared(f, k).Keys;
  }

  /** The hook's state. */
  class FilterState {
    var filters: Filters

    /** `useState({ ...defaultFilters, ...initialFilters })`. */
    constructor(initialFilters: Filters)
      ensures filters == Overlay(DefaultFilters, initialFilters)
    {
      filters := DefaultFilters + initialFilters;
    }

    /** `updateFilter(key, value)`. */
    method UpdateFilter(k: FilterKey, v: Value)
      modifies this
      ensures filters == Updated(old(filters), k, v)
    {
      filters := filters[k := v];
    }

    /** `resetFilters`: the defaults, whatever came before, so resetting
        twice is resetting once. */
    method ResetFilters()
      modifies this
      ensures filters == DefaultFilters
    {
      filters := DefaultFilters;
    }

    /** `clearFilter(key)`. */
    method ClearFilter(k: FilterKey)
      modifies this
      ensures filters == Cleared(old(filters), k)
    {
      var newFilters := filters;
      newFilters := newFilters - {k};
      filters := newFilters;
    }

    /** `setFilters(f)`: the whole record is replaced. */
    method SetFilters(f: Filters)
      modifies this
      ensures filters == f
    {
      filters := f;
    }
  }
}
