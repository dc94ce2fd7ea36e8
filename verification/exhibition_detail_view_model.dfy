/**
 * The paging cursor over the artworks of one exhibition
 * (HarvardArtAPP/Features/ExhibitionDetail/ExhibitionDetailViewModel.swift).
 *
 * Each `async` method awaits one request. It is split at the `await`: `BeginX` runs the
 * guard and the statements before the request and returns the request it would send (or
 * `None` when the guard returns early); `FinishX` runs the statements after it, given what
 * the request returned or threw.
 */
module ExhibitionDetailViewModel {
  import opened Wrappers
  import opened APIResponse
  import APIClient
  import ArtworkModel
  import ExhibitionModel

  type Outcome = Result<Response<ArtworkModel.Artwork>, APIClient.RequestFailure>

  class ExhibitionDetailState {
    /** The exhibition fixed at creation; every request is scoped to its id. */
    const exhibition: ExhibitionModel.Exhibition
    var artworks: seq<ArtworkModel.Artwork>
    var isLoading: bool
    var isLoadingMore: bool
    var errorMessage: Option<string>
    var currentPage: int
    var hasMorePages: bool

    constructor (exhibition: ExhibitionModel.Exhibition)
      ensures this.exhibition == exhibition
      ensures artworks == [] && !isLoading && !isLoadingMore && errorMessage.None?
      ensures currentPage == 1 && hasMorePages
    {
      this.exhibition := exhibition;
      artworks := [];
      isLoading := false;
      isLoadingMore := false;
      errorMessage := None;
      currentPage := 1;
      hasMorePages := true;
    }

    /** Start of `loadArtworks`: nothing while a load is running; otherwise page 1 is requested. */
    method BeginLoad() returns (request: Option<APIClient.Request>)
      modifies this`isLoading, this`errorMessage
      ensures old(isLoading) ==> request.None? && isLoading && errorMessage == old(errorMessage)
      ensures !old(isLoading) ==> request == Some(APIClient.FetchArtworksInExhibition(exhibition.id, 1, APIClient.DefaultSize))
                                  && isLoading && errorMessage.None?
    {
      if isLoading {
        return None;
      }
      isLoading := true;
      errorMessage := None;
      request := Some(APIClient.FetchArtworksInExhibition(exhibition.id, 1, APIClient.DefaultSize));
    }

    /**
     * End of `loadArtworks`: page 1 replaces the list and decides whether more pages
     * follow; a failure records its message and keeps the list and the cursor.
     */
    method FinishLoad(outcome: Outcome)
      modifies this`artworks, this`currentPage, this`hasMorePages, this`errorMessage, this`isLoading
      ensures !isLoading
      ensures outcome.Success? ==> artworks == outcome.value.records && currentPage == 1
                                   && hasMorePages == HasNextPage(outcome.value.info) && errorMessage == old(errorMessage)
      ensures outcome.Failure? ==> artworks == old(artworks) && currentPage == old(currentPage)
                                   && hasMorePages == old(hasMorePages)
                                   && errorMessage == Some(APIClient.LocalizedDescription(outcome.error))
    {
      match outcome {
        case Success(response) =>
          artworks := response.records;
          currentPage := 1;
          hasMorePages := HasNextPage(response.info);
        case Failure(failure) =>
          errorMessage := Some(APIClient.LocalizedDescription(failure));
      }
      isLoading := false;
    }

    /** Start of `refreshArtworks`: the list and the cursor are reset, then a load begins. */
    method BeginRefresh() returns (request: Option<APIClient.Request>)
      modifies this`artworks, this`currentPage, this`hasMorePages, this`isLoading, this`errorMessage
      ensures artworks == [] && currentPage == 1 && hasMorePages && isLoading
      ensures old(isLoading) ==> request.None? && errorMessage == old(errorMessage)
      ensures !old(isLoading) ==> request == Some(APIClient.FetchArtworksInExhibition(exhibition.id, 1, APIClient.DefaultSize)) && errorMessage.None?
    {
      artworks := [];
      currentPage := 1;
      hasMorePages := true;
      request := BeginLoad();
    }

    /** Start of `loadMoreArtworks`: nothing while loading more or after the last page; otherwise the next page is requested. */
    method BeginLoadMore() returns (request: Option<APIClient.Request>)
      modifies this`isLoadingMore
      ensures old(isLoadingMore) || !hasMorePages ==> request.None? && isLoadingMore == old(isLoadingMore)
      ensures !old(isLoadingMore) && hasMorePages ==>
                isLoadingMore && request == Some(APIClient.FetchArtworksInExhibition(exhibition.id, currentPage + 1, APIClient.DefaultSize))
    {
      if isLoadingMore || !hasMorePages {
        return None;
      }
      isLoadingMore := true;
      request := Some(APIClient.FetchArtworksInExhibition(exhibition.id, currentPage + 1, APIClient.DefaultSize));
    }

    /**
     * End of `loadMoreArtworks` for the page `nextPage` that was requested: its records are
     * appended and the cursor moves to it; a failure records its message and keeps the rest.
     */
    method FinishLoadMore(nextPage: int, outcome: Outcome)
      modifies this`artworks, this`currentPage, this`hasMorePages, this`errorMessage, this`isLoadingMore
      ensures !isLoadingMore
      ensures outcome.Success? ==> artworks == old(artworks) + outcome.value.records && currentPage == nextPage
                                   && hasMorePages == HasNextPage(outcome.value.info) && errorMessage == old(errorMessage)
      ensures outcome.Failure? ==> artworks == old(artworks) && currentPage == old(currentPage)
                                   && hasMorePages == old(hasMorePages)
                                   && errorMessage == Some(APIClient.LocalizedDescription(outcome.error))
    {
      match outcome {
        case Success(response) =>
          artworks := artworks + response.records;
          currentPage := nextPage;
          hasMorePages := HasNextPage(response.info);
        case Failure(failure) =>
          errorMessage := Some(APIClient.LocalizedDescription(failure));
      }
      isLoadingMore := false;
    }

    /** `clearError`. */
    method ClearError()
      modifies this`errorMessage
      ensures errorMessage.None?
    {
      errorMessage := None;
    }
  }

  /**
   * Loading page 1 and then one more page shows the two pages' records in order on page 2,
   * and both requests are scoped to the exhibition the state was created for.
   */
  method LoadTwoPages(shownExhibition: ExhibitionModel.Exhibition, first: Response<ArtworkModel.Artwork>, second: Response<ArtworkModel.Artwork>)
    returns (artworks: seq<ArtworkModel.Artwork>, page: int, requests: seq<Option<APIClient.Request>>)
    requires HasNextPage(first.info)
    ensures artworks == first.records + second.records && page == 2
    ensures requests == [Some(APIClient.FetchArtworksInExhibition(shownExhibition.id, 1, APIClient.DefaultSize)),
                         Some(APIClient.FetchArtworksInExhibition(shownExhibition.id, 2, APIClient.DefaultSize))]
  {
    var state := new ExhibitionDetailState(shownExhibition);
    var firstRequest := state.BeginLoad();
    state.FinishLoad(Success(first));
    var secondRequest := state.BeginLoadMore();
    state.FinishLoadMore(2, Success(second));
    artworks, page, requests := state.artworks, state.currentPage, [firstRequest, secondRequest];
  }
}
