/** The bookings list query: defaults for paging and sorting, the offset
    computation, the conditional filter parameters and the cache key. */
module UseBookings {
  import opened Seqs

  datatype SortOrder = Asc | Desc
  datatype Sorting = Sorting(field: string, order: SortOrder)

  /** The filters the caller may pass; an absent or empty value is unset. */
  datatype Filters = Filters(search: Option<string>, status: Option<string>, payment_status: Option<string>)

  datatype UseBookingsParams = UseBookingsParams(page: Option<int>, pageSize: Option<int>, sorting: Option<Sorting>, filters: Option<Filters>)

  /** What is sent to the list endpoint. */
  datatype ListParams = ListParams(skip: int, limit: int, sort_by: string, order: SortOrder,
                                   search: Option<string>, status: Option<string>, payment_status: Option<string>)

  /** The query's cache key: the tag, the resolved page, size, sorting and filters. */
  datatype QueryKey = QueryKey(tag: string, page: int, pageSize: int, sorting: Sorting, filters: Filters)

  const DefaultPage := 1
  const DefaultPageSize := 10
  const DefaultSorting := Sorting("created_at", Desc)
  const NoFilters := Filters(None, None, None)

  /** A filter value that takes part in the request: set and non-empty. */
  predicate IsSet(v: Option<string>) {
    v.Some? && v.value != ""
  }

  /** A status-like filter that takes part: set, non-empty and not 'all'. */
  predicate IsSelective(v: Option<string>) {
    IsSet(v) && v.value != "all"
  }

  /** The parameters after defaults are applied, as the cache key holds them. */
  function Key(params: UseBookingsParams): (k: QueryKey)
    ensures k.tag == "bookings"
    ensures k.page == params.page.GetOr(DefaultPage) && k.pageSize == params.pageSize.GetOr(DefaultPageSize)
    ensures k.sorting == params.sorting.GetOr(DefaultSorting) && k.filters == params.filters.GetOr(NoFilters)
  {
    QueryKey("bookings", params.page.GetOr(DefaultPage), params.pageSize.GetOr(DefaultPageSize),
             params.sorting.GetOr(DefaultSorting), params.filters.GetOr(NoFilters))
  }

  /** The offset of the first row of a page. */
  function Skip(page: int, pageSize: int): (skip: int)
    ensures page >= 1 && pageSize >= 0 ==> skip >= 0
  {
    (page - 1) * pageSize
  }

  /** The request built from the resolved parameters. */
  function QueryParams(k: QueryKey): (r: ListParams)
    ensures r.skip == Skip(k.page, k.pageSize) && r.limit == k.pageSize
    ensures r.sort_by == k.sorting.field && r.order == k.sorting.order
    ensures r.search.Some? <==> IsSet(k.filters.search)
    ensures r.search.Some? ==> r.search == k.filters.search
    ensures r.status.Some? <==> IsSelective(k.filters.status)
    ensures r.status.Some? ==> r.status == k.filters.status
    ensures r.payment_status.Some? <==> IsSelective(k.filters.payment_status)
    ensures r.payment_status.Some? ==> r.payment_status == k.filters.payment_status
  {
    ListParams(Skip(k.page, k.pageSize), k.pageSize, k.sorting.field, k.sorting.order,
               if IsSet(k.filters.search) then k.filters.search else None,
               if IsSelective(k.filters.status) then k.filters.status else None,
               if IsSelective(k.filters.payment_status) then k.filters.payment_status else None)
  }

  /** `useBookings` with no arguments asks for the ten newest bookings. */
  lemma DefaultsFirstPage()
    ensures QueryParams(Key(UseBookingsParams(None, None, None, None)))
      == ListParams(0, 10, "created_at", Desc, None, None, None)
  {
  }

  /** Consecutive pages of one size are adjacent windows: the next page
      starts where the previous one ends. */
  lemma PagesAdjacent(page: int, pageSize: int)
    ensures Skip(page + 1, pageSize) == Skip(page, pageSize) + pageSize
  {
  }

  /** Distinct pages of a positive size never overlap. */
  lemma {:induction false} PagesDisjoint(p: int, q: int, pageSize: int)
    requires p < q && pageSize > 0
    ensures Skip(p, pageSize) + pageSize <= Skip(q, pageSize)
    decreases q - p
  {
    if q > p + 1 {
      PagesDisjoint(p, q - 1, pageSize);
      PagesAdjacent(q - 1, pageSize);
    } else {
      PagesAdjacent(p, pageSize);
    }
  }

  /** Picking 'all' for a status filter is the same request as no filter. */
  lemma AllStatusIsNoFilter(k: QueryKey)
    requires k.filters.status == Some("all")
    ensures QueryParams(k) == QueryParams(k.(filters := k.filters.(status := None)))
  {
  }
}
