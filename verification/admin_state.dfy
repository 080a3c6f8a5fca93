/** The filter and pagination state of the admin context, its two update
    operations, the document queries built from it and the context guard. */
module AdminState {
  import opened Wrappers

  /** A document's access type. */
  datatype AccessType = Private | Public | GroupAccess

  /** The access-type filter: a type, or "all". */
  datatype AccessFilter = AllAccess | OnlyAccess(access: AccessType)

  /** The string every filter holds when it does not restrict anything. */
  const All := "all"

  datatype Filters = Filters(accessType: AccessFilter, category: string, tag: string, group: string)

  /** `pageIndex` counts from 0. JavaScript numbers are modelled as integers. */
  datatype Pagination = Pagination(pageIndex: int, pageSize: int)

  /** The part of the context this model covers. */
  datatype AdminView = AdminView(filters: Filters, pagination: Pagination)

  /** The state when the provider mounts. */
  const Initial := AdminView(Filters(AllAccess, All, All, All), Pagination(0, 10))

  /** The argument of `setPagination`: `None` is a key the caller left out. */
  datatype PaginationPatch = PaginationPatch(pageIndex: Option<int>, pageSize: Option<int>)

  /** The argument of `setFilters`: `None` is a key the caller left out. */
  datatype FiltersPatch = FiltersPatch(
    accessType: Option<AccessFilter>,
    category: Option<string>,
    tag: Option<string>,
    group: Option<string>)

  /** `{ ...pagination, ...patch }`. */
  function MergePagination(p: Pagination, patch: PaginationPatch): Pagination {
    Pagination(patch.pageIndex.GetOr(p.pageIndex), patch.pageSize.GetOr(p.pageSize))
  }

  /** `{ ...filters, ...patch }`. */
  function MergeFilters(f: Filters, patch: FiltersPatch): Filters {
    Filters(
      patch.accessType.GetOr(f.accessType),
      patch.category.GetOr(f.category),
      patch.tag.GetOr(f.tag),
      patch.group.GetOr(f.group))
  }

  /** `updatePagination`: the supplied fields replace the old ones, the others
      are kept, and the filters are untouched. */
  function UpdatePagination(v: AdminView, patch: PaginationPatch): (r: AdminView)
    ensures r.filters == v.filters
    ensures r.pagination.pageIndex == if patch.pageIndex.Some? then patch.pageIndex.value else v.pagination.pageIndex
    ensures r.pagination.pageSize == if patch.pageSize.Some? then patch.pageSize.value else v.pagination.pageSize
  {
    v.(pagination := MergePagination(v.pagination, patch))
  }

  /** `updateFilters`: the supplied filters replace the old ones, the others
      are kept, and the view returns to the first page at the same size. */
  function UpdateFilters(v: AdminView, patch: FiltersPatch): (r: AdminView)
    ensures r.pagination == Pagination(0, v.pagination.pageSize)
    ensures r.filters.accessType == if patch.accessType.Some? then patch.accessType.value else v.filters.accessType
    ensures r.filters.category == if patch.category.Some? then patch.category.value else v.filters.category
    ensures r.filters.tag == if patch.tag.Some? then patch.tag.value else v.filters.tag
    ensures r.filters.group == if patch.group.Some? then patch.group.value else v.filters.group
  {
    AdminView(MergeFilters(v.filters, patch), v.pagination.(pageIndex := 0))
  }

  /** The later of two pagination patches wins key by key. */
  function ThenPagination(first: PaginationPatch, second: PaginationPatch): PaginationPatch {
    PaginationPatch(
      if second.pageIndex.Some? then second.pageIndex else first.pageIndex,
      if second.pageSize.Some? then second.pageSize else first.pageSize)
  }

  /** The later of two filter patches wins key by key. */
  function ThenFilters(first: FiltersPatch, second: FiltersPatch): FiltersPatch {
    FiltersPatch(
      if second.accessType.Some? then second.accessType else first.accessType,
      if second.category.Some? then second.category else first.category,
      if second.tag.Some? then second.tag else first.tag,
      if second.group.Some? then second.group else first.group)
  }

  /** Two successive updates equal one update with the combined patch, an
      empty patch changes nothing, and repeating an update changes nothing
      more. */
  lemma UpdatePaginationLaws(v: AdminView, a: PaginationPatch, b: PaginationPatch)
    ensures UpdatePagination(UpdatePagination(v, a), b) == UpdatePagination(v, ThenPagination(a, b))
    ensures UpdatePagination(v, PaginationPatch(None, None)) == v
    ensures UpdatePagination(UpdatePagination(v, a), a) == UpdatePagination(v, a)
  {
  }

  /** The same laws for filter updates; an empty filter patch still resets
      the page index. */
  lemma UpdateFiltersLaws(v: AdminView, a: FiltersPatch, b: FiltersPatch)
    ensures UpdateFilters(UpdateFilters(v, a), b) == UpdateFilters(v, ThenFilters(a, b))
    ensures UpdateFilters(v, FiltersPatch(None, None, None, None)) == v.(pagination := Pagination(0, v.pagination.pageSize))
    ensures UpdateFilters(UpdateFilters(v, a), a) == UpdateFilters(v, a)
  {
  }

  /** A call a handler makes during one render. */
  datatype Call = SetPagination(pagination: PaginationPatch) | SetFilters(filters: FiltersPatch)

  /** Several calls made during the same render. Each call spreads the
      `filters` and `pagination` of that render, not the state an earlier
      call of the same render set; each state setter replaces the whole
      value, so the last call to set a state variable decides it. */
  function SameRender(v: AdminView, calls: seq<Call>): AdminView
    decreases |calls|
  {
    if |calls| == 0 then v
    else
      var before := SameRender(v, calls[..|calls| - 1]);
      match calls[|calls| - 1]
      case SetPagination(p) => before.(pagination := MergePagination(v.pagination, p))
      case SetFilters(f) => AdminView(MergeFilters(v.filters, f), v.pagination.(pageIndex := 0))
  }

  /** Within one render the last update wins: of two pagination updates only
      the second takes effect, and a filter update discards an earlier
      pagination update. Only when a render separates the calls do they
      compose as `UpdatePaginationLaws` and `UpdateFiltersLaws` state. */
  lemma SameRenderLastWins(v: AdminView, a: PaginationPatch, b: PaginationPatch, f: FiltersPatch)
    ensures SameRender(v, [SetPagination(a), SetPagination(b)]) == UpdatePagination(v, b)
    ensures SameRender(v, [SetPagination(a), SetFilters(f)]) == UpdateFilters(v, f)
    ensures SameRender(v, [SetPagination(a)]) == UpdatePagination(v, a)
    ensures SameRender(v, [SetFilters(f)]) == UpdateFilters(v, f)
  {
    assert [SetPagination(a)][..0] == [];
    assert [SetFilters(f)][..0] == [];
    assert SameRender(v, [SetPagination(a)]).filters == v.filters;
    assert [SetPagination(a), SetPagination(b)][..1] == [SetPagination(a)];
    assert [SetPagination(a), SetFilters(f)][..1] == [SetPagination(a)];
  }

  /** The parameters of `getAllDocuments`. */
  datatype DocumentQuery = DocumentQuery(
    page: int,
    limit: int,
    accessType: AccessFilter,
    categoryId: string,
    tag: string,
    group: string)

  /** The parameters of `getPendingDocuments`. */
  datatype PageQuery = PageQuery(page: int, limit: int)

  /** The document query built from the view: pages count from 1 on the
      server, from 0 in the view. */
  function DocumentsQuery(v: AdminView): (q: DocumentQuery)
    ensures q.page - 1 == v.pagination.pageIndex
    ensures q.limit == v.pagination.pageSize
    ensures q.accessType == v.filters.accessType && q.categoryId == v.filters.category
    ensures q.tag == v.filters.tag && q.group == v.filters.group
  {
    DocumentQuery(
      v.pagination.pageIndex + 1,
      v.pagination.pageSize,
      v.filters.accessType,
      v.filters.category,
      v.filters.tag,
      v.filters.group)
  }

  /** The query carries the whole view: two views that send the same query
      are the same view, so no filter or pagination change is lost on the way
      to the server. */
  lemma QueryDeterminesView(v1: AdminView, v2: AdminView)
    requires DocumentsQuery(v1) == DocumentsQuery(v2)
    ensures v1 == v2
  {
  }

  /** The two queries the initial fetch issues: the filtered documents and
      the first four pending documents, whatever the view. */
  datatype FetchPlan = FetchPlan(documents: DocumentQuery, pending: PageQuery)

  function InitialFetch(v: AdminView): (plan: FetchPlan)
    ensures plan.documents == DocumentsQuery(v)
    ensures plan.pending.page == 1 && plan.pending.limit == 4
  {
    FetchPlan(DocumentsQuery(v), PageQuery(1, 4))
  }

  /** A view whose page index is a real page and whose page size is usable. */
  predicate Valid(v: AdminView) {
    v.pagination.pageIndex >= 0 && v.pagination.pageSize > 0
  }

  /** The view starts valid, filter updates keep it valid, and pagination
      updates keep it valid when they supply valid values; a valid view asks
      the server for page 1 or later. */
  lemma ValidityPreserved(v: AdminView, fp: FiltersPatch, pp: PaginationPatch)
    ensures Valid(Initial)
    ensures Valid(v) ==> Valid(UpdateFilters(v, fp))
    ensures Valid(v) && (pp.pageIndex.Some? ==> pp.pageIndex.value >= 0)
                     && (pp.pageSize.Some? ==> pp.pageSize.value > 0)
            ==> Valid(UpdatePagination(v, pp))
    ensures Valid(v) ==> DocumentsQuery(v).page >= 1
    ensures DocumentsQuery(UpdateFilters(v, fp)).page == 1
  {
  }

  /** The message `useAdminContext` throws outside the provider. */
  const OutsideProvider := "useAdminContext phải được sử dụng trong AdminProvider"

  /** `useAdminContext`: the provided value, or the thrown error when no
      provider is present. */
  function UseAdminContext<T>(provided: Option<T>): (r: Result<T, string>)
    ensures r.Failure? <==> provided.None?
    ensures r.Failure? ==> r.error == OutsideProvider
    ensures r.Success? ==> r.value == provided.value
  {
    match provided
    case Some(ctx) => Success(ctx)
    case None => Failure(OutsideProvider)
  }
}
