/**
 * The paging cursor over the exhibition list (HarvardArtAPP/Features/Browse/BrowseViewModel.swift).
 *
 * Each `async` method awaits one request. It is split at the `await`: `BeginX` runs the
 * guard and the statements before the request and returns the request it would send (or
 * `None` when the guard returns early); `FinishX` runs the statements after it, given what
 * the request returned or threw.
 */
module BrowseViewModel {
  import opened Wrappers
  import opened APIResponse
  import APIClient
  import ExhibitionModel

  type Outcome = Result<Response<ExhibitionModel.Exhibition>, APIClient.RequestFailure>

  class BrowseState {
    var exhibitions: seq<ExhibitionModel.Exhibition>
    var isLoading: bool
    var isLoadingMore: bool
    var errorMessage: Option<string>
    var currentPage: int
    var hasMorePages: bool

    constructor ()
      ensures exhibitions == [] && !isLoading && !isLoadingMore && errorMessage.None?
      ensures currentPage == 1 && hasMorePages
    {
      exhibitions := [];
      isLoading := false;
      isLoadingMore := false;
      errorMessage := None;
      currentPage := 1;
      hasMorePages := true;
    }

    /** Start of `loadExhibitions`: nothing while a load is running; otherwise page 1 is requested. */
    method BeginLoad() returns (request: Option<APIClient.Request>)
      modifies this`isLoading, this`errorMessage
      ensures old(isLoading) ==> request.None? && isLoading && errorMessage == old(errorMessage)
      ensures !old(isLoading) ==> request == Some(APIClient.FetchExhibitions(1, APIClient.DefaultSize))
                                  && isLoading && errorMessage.None?
    {
      if isLoading {
        return None;
      }
      isLoading := true;
      errorMessage := None;
      request := Some(APIClient.FetchExhibitions(1, APIClient.DefaultSize));
    }

    /**
     * End of `loadExhibitions`: page 1 replaces the list and decides whether more pages
     * follow; a failure records its message and keeps the list and the cursor.
     */
    method FinishLoad(outcome: Outcome)
      modifies this`exhibitions, this`currentPage, this`hasMorePages, this`errorMessage, this`isLoading
      ensures !isLoading
      ensures outcome.Success? ==> exhibitions == outcome.value.records && currentPage == 1
                                   && hasMorePages == HasNextPage(outcome.value.info) && errorMessage == old(errorMessage)
      ensures outcome.Failure? ==> exhibitions == old(exhibitions) && currentPage == old(currentPage)
                                   && hasMorePages == old(hasMorePages)
                                   && errorMessage == Some(APIClient.LocalizedDescription(outcome.error))
    {
      match outcome {
        case Success(response) =>
          exhibitions := response.records;
          currentPage := 1;
          hasMorePages := HasNextPage(response.info);
        case Failure(failure) =>
          errorMessage := Some(APIClient.LocalizedDescription(failure));
      }
      isLoading := false;
    }

    /** Start of `refreshExhibitions`: the list and the cursor are reset, then a load begins. */
    method BeginRefresh() returns (request: Option<APIClient.Request>)
      modifies this`exhibitions, this`currentPage, this`hasMorePages, this`isLoading, this`errorMessage
      ensures exhibitions == [] && currentPage == 1 && hasMorePages && isLoading
      ensures old(isLoading) ==> request.None? && errorMessage == old(errorMessage)
      ensures !old(isLoading) ==> request == Some(APIClient.FetchExhibitions(1, APIClient.DefaultSize)) && errorMessage.None?
    {
      exhibitions := [];
      currentPage := 1;
      hasMorePages := true;
      request := BeginLoad();
    }

    /** Start of `loadMoreExhibitions`: nothing while loading more or after the last page; otherwise the next page is requested. */
    method BeginLoadMore() returns (request: Option<APIClient.Request>)
      modifies this`isLoadingMore
      ensures old(isLoadingMore) || !hasMorePages ==> request.None? && isLoadingMore == old(isLoadingMore)
      ensures !old(isLoadingMore) && hasMorePages ==>
                isLoadingMore && request == Some(APIClient.FetchExhibitions(currentPage + 1, APIClient.DefaultSize))
    {
      if isLoadingMore || !hasMorePages {
        return None;
      }
      isLoadingMore := true;
      request := Some(APIClient.FetchExhibitions(currentPage + 1, APIClient.DefaultSize));
    }

    /**
     * End of `loadMoreExhibitions` for the page `nextPage` that was requested: its records are
     * appended and the cursor moves to it; a failure records its message and keeps the rest.
     */
    method FinishLoadMore(nextPage: int, outcome: Outcome)
      modifies this`exhibitions, this`currentPage, this`hasMorePages, this`errorMessage, this`isLoadingMore
      ensures !isLoadingMore
      ensures outcome.Success? ==> exhibitions == old(exhibitions) + outcome.value.records && currentPage == nextPage
                                   && hasMorePages == HasNextPage(outcome.value.info) && errorMessage == old(errorMessage)
      ensures outcome.Failure? ==> exhibitions == old(exhibitions) && currentPage == old(currentPage)
                                   && hasMorePages == old(hasMorePages)
                                   && errorMessage == Some(APIClient.LocalizedDescription(outcome.error))
    {
      match outcome {
        case Success(response) =>
          exhibitions := exhibitions + response.records;
          currentPage := nextPage;
          hasMorePages := HasNextPage(response.info);
        case Failure(failure) =>
          errorMessage := Some(APIClient.LocalizedDescription(failure));
      }
      isLoadingMore := false;
    }

    /** `clearError`. */
    method ClearError()
      modifies this`errorMessage
      ensures errorMessage.None?
    {
      errorMessage := None;
    }
  }

  /**
   * Loading page 1 and then one more page shows the two pages' records in order on page 2;
   * the second request asks for page 2 with the default size.
   */
  method LoadTwoPages(first: Response<ExhibitionModel.Exhibition>, second: Response<ExhibitionModel.Exhibition>)
    returns (exhibitions: seq<ExhibitionModel.Exhibition>, page: int, more: bool, secondRequest: Option<APIClient.Request>)
    requires HasNextPage(first.info)
    ensures exhibitions == first.records + second.records && page == 2 && more == HasNextPage(second.info)
    ensures secondRequest == Some(APIClient.FetchExhibitions(2, APIClient.DefaultSize))
  {
    var state := new BrowseState();
    var request := state.BeginLoad();
    state.FinishLoad(Success(first));
    secondRequest := state.BeginLoadMore();
    state.FinishLoadMore(2, Success(second));
    exhibitions, page, more := state.exhibitions, state.currentPage, state.hasMorePages;
  }

  /** After a last page, loading more sends nothing and changes nothing. */
  method LoadMoreAfterLastPage(only: Response<ExhibitionModel.Exhibition>)
    returns (request: Option<APIClient.Request>, exhibitions: seq<ExhibitionModel.Exhibition>)
    requires only.info.page >= only.info.pages
    ensures request.None? && exhibitions == only.records
  {
    var state := new BrowseState();
    var first := state.BeginLoad();
    state.FinishLoad(Success(only));
    LastPageHasNoNext(only.info);
    request := state.BeginLoadMore();
    exhibitions := state.exhibitions;
  }

  /** A refresh whose request fails leaves an empty list, the message of the failure, and page 1. */
  method FailedRefresh(shown: Response<ExhibitionModel.Exhibition>, failure: APIClient.RequestFailure)
    returns (exhibitions: seq<ExhibitionModel.Exhibition>, page: int, errorMessage: Option<string>)
    ensures exhibitions == [] && page == 1 && errorMessage == Some(APIClient.LocalizedDescription(failure))
  {
    var state := new BrowseState();
    var request := state.BeginLoad();
    state.FinishLoad(Success(shown));
    request := state.BeginRefresh();
    state.FinishLoad(Failure(failure));
    exhibitions, page, errorMessage := state.exhibitions, state.currentPage, state.errorMessage;
  }
}
