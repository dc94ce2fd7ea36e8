/** The paginated envelope of every catalogue response (HarvardArtAPP/Models/APIResponse.swift). */
module APIResponse {
  import opened Wrappers

  datatype PageInfo = PageInfo(
    totalrecords: int,
    totalrecordsperquery: int,
    page: int,
    pages: int,
    next: Option<string>,
    prev: Option<string>)

  datatype Response<T> = Response(info: PageInfo, records: seq<T>)

  /** `hasNextPage`: the current page is before the last one. */
  function HasNextPage(info: PageInfo): (r: bool)
    ensures r <==> info.page < info.pages
  {
    info.page < info.pages
  }

  /** `hasPreviousPage`: the current page is after the first one. */
  function HasPreviousPage(info: PageInfo): (r: bool)
    ensures r <==> info.page > 1
  {
    info.page > 1
  }

  /** On the last page (or past it) there is no next page. */
  lemma LastPageHasNoNext(info: PageInfo)
    requires info.page >= info.pages
    ensures !HasNextPage(info)
  {
  }

  /** The single-page response of the development mock data (page 1 of 1). */
  function MockSinglePage(): (info: PageInfo)
    ensures !HasNextPage(info) && !HasPreviousPage(info)
  {
    PageInfo(3, 20, 1, 1, None, None)
  }
}
