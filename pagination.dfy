/** Page arithmetic of the DAO layers (dao/common.go, internal/dao/common.go)
    and the self-normalising query parameters of the entity packages
    (entity/query_params.go, internal/entity/common.go). */
module Pagination {
  import opened Wrappers

  const DefaultPageSize: int := 10
  /** dao/common.go caps a page at 1000 rows ... */
  const MaxPageSize: int := 1000
  /** ... and the older internal/dao/common.go at 100. */
  const InternalMaxPageSize: int := 100

  datatype PageQuery = PageQuery(page: int, pageSize: int)

  /** normalizeQueryParams with the package's cap: a page below 1 becomes the
      first page, a size below 1 the default size, a size above the cap the
      cap; values already in range are kept. */
  function NormalizeQueryParams(p: PageQuery, cap: int): (r: PageQuery)
    requires cap >= DefaultPageSize
    ensures r.page >= 1 && 1 <= r.pageSize <= cap
    ensures p.page >= 1 ==> r.page == p.page
    ensures p.page < 1 ==> r.page == 1
    ensures 1 <= p.pageSize <= cap ==> r.pageSize == p.pageSize
    ensures p.pageSize < 1 ==> r.pageSize == DefaultPageSize
    ensures p.pageSize > cap ==> r.pageSize == cap
  {
    var page := if p.page <= 0 then 1 else p.page;
    var size := if p.pageSize <= 0 then DefaultPageSize else p.pageSize;
    var size' := if size > cap then cap else size;
    PageQuery(page, size')
  }

  /** pagination: the row offset of the requested page and the page size. */
  function Pagination(p: PageQuery, cap: int): (r: (int, int))
    requires cap >= DefaultPageSize
    ensures r.0 >= 0 && 1 <= r.1 <= cap
  {
    var n := NormalizeQueryParams(p, cap);
    MulNonNegative(n.page - 1, n.pageSize);
    ((n.page - 1) * n.pageSize, n.pageSize)
  }

  lemma MulNonNegative(a: int, b: int)
    requires a >= 0 && b >= 0
    ensures a * b >= 0
  {
  }

  /** Consecutive pages are adjacent and do not overlap: the next page starts
      where this one ends. */
  lemma NextPageFollows(page: int, pageSize: int, cap: int)
    requires cap >= DefaultPageSize && page >= 1
    ensures Pagination(PageQuery(page + 1, pageSize), cap).0
         == Pagination(PageQuery(page, pageSize), cap).0 + Pagination(PageQuery(page, pageSize), cap).1
  {
    var n := NormalizeQueryParams(PageQuery(page, pageSize), cap);
    assert (page + 1 - 1) * n.pageSize == (page - 1) * n.pageSize + n.pageSize;
  }

  /** The first page starts at row 0, whatever the size. */
  lemma FirstPage(page: int, pageSize: int, cap: int)
    requires cap >= DefaultPageSize && page <= 1
    ensures Pagination(PageQuery(page, pageSize), cap).0 == 0
  {
  }

  /** internal/dao/common.go never asks for more than 100 rows. */
  lemma InternalLimitCapped(p: PageQuery)
    ensures 1 <= Pagination(p, InternalMaxPageSize).1 <= 100
    ensures p.pageSize > 100 ==> Pagination(p, InternalMaxPageSize).1 == 100
  {
  }

  /** A database handle bound to a context. */
  datatype Context = Background | Given(name: string)

  /** withContext: no handle is ErrDBNotInitialized; a missing context is
      replaced by the background context. */
  function WithContext<D>(db: Option<D>, ctx: Option<Context>): (r: Result<(D, Context)>)
    ensures r.Err? <==> db.None?
    ensures r.Err? ==> r.error == DBNotInitialized
    ensures r.Ok? ==> r.value.0 == db.value
    ensures r.Ok? ==> r.value.1 == (if ctx.Some? then ctx.value else Background)
  {
    if db.None? then Err(DBNotInitialized)
    else Ok((db.value, if ctx.None? then Background else ctx.value))
  }

  /** entity.QueryParams (the internal/entity copy is the same code): the
      paging fields, normalised in place by the getters. */
  class QueryParams {
    var page: int
    var pageSize: int

    constructor (page: int, pageSize: int)
      ensures this.page == page && this.pageSize == pageSize
    {
      this.page := page;
      this.pageSize := pageSize;
    }

    /** GetOffset: writes the first page and the default size back into the
        receiver where they were not positive, then returns the row offset. */
    method GetOffset() returns (offset: int)
      modifies this
      ensures page == (if old(page) <= 0 then 1 else old(page))
      ensures pageSize == (if old(pageSize) <= 0 then DefaultPageSize else old(pageSize))
      ensures page >= 1 && pageSize >= 1
      ensures offset == (page - 1) * pageSize && offset >= 0
    {
      if page <= 0 {
        page := 1;
      }
      if pageSize <= 0 {
        pageSize := 10;
      }
      MulNonNegative(page - 1, pageSize);
      offset := (page - 1) * pageSize;
    }

    /** GetLimit: writes the default size back when it was not positive and
        returns the size, with no upper cap. */
    method GetLimit() returns (limit: int)
      modifies this
      ensures page == old(page)
      ensures pageSize == (if old(pageSize) <= 0 then DefaultPageSize else old(pageSize))
      ensures limit == pageSize && limit >= 1
      ensures old(pageSize) > MaxPageSize ==> limit == old(pageSize)
    {
      if pageSize <= 0 {
        pageSize := 10;
      }
      limit := pageSize;
    }
  }
}
