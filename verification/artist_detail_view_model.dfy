/**
 * The paging cursor over the artworks of one artist
 * (HarvardArtAPP/Features/ArtistDetail/ArtistDetailViewModel.swift). Unlike the other
 * cursors, the artist is chosen per load and remembered in `currentArtistId`, and "no error"
 * is the empty message rather than a missing one.
 *
 * Each `async` method is split at its `await` into `BeginX` (guard and the statements before
 * the request; returns the request it would send) and `FinishX` (the statements after it).
 */
module ArtistDetailViewModel {
  import opened Wrappers
  import opened APIResponse
  import APIClient
  import ArtworkModel

  type Outcome = Result<Response<ArtworkModel.Artwork>, APIClient.RequestFailure>

  class ArtistDetailState {
    var artworks: seq<ArtworkModel.Artwork>
    var isLoading: bool
    var isLoadingMore: bool
    var errorMessage: string
    var currentPage: int
    var hasMorePages: bool
    var currentArtistId: int

    constructor ()
      ensures artworks == [] && !isLoading && !isLoadingMore && errorMessage == ""
      ensures currentPage == 1 && hasMorePages && currentArtistId == 0
    {
      artworks := [];
      isLoading := false;
      isLoadingMore := false;
      errorMessage := "";
      currentPage := 1;
      hasMorePages := true;
      currentArtistId := 0;
    }

    /**
     * Start of `loadArtworksByArtist`: nothing (not even the artist) changes while a load is
     * running; otherwise the artist is remembered, the error cleared and page 1 requested.
     */
    method BeginLoad(artistId: int) returns (request: Option<APIClient.Request>)
      modifies this`currentArtistId, this`isLoading, this`errorMessage
      ensures old(isLoading) ==> request.None? && isLoading
                                 && currentArtistId == old(currentArtistId) && errorMessage == old(errorMessage)
      ensures !old(isLoading) ==> request == Some(APIClient.FetchArtworksByArtist(artistId, 1, APIClient.DefaultSize))
                                  && currentArtistId == artistId && isLoading && errorMessage == ""
    {
      if isLoading {
        return None;
      }
      currentArtistId := artistId;
      isLoading := true;
      errorMessage := "";
      request := Some(APIClient.FetchArtworksByArtist(artistId, 1, APIClient.DefaultSize));
    }

    /** End of `loadArtworksByArtist`: page 1 replaces the list; a failure keeps it and records its message. */
    method FinishLoad(outcome: Outcome)
      modifies this`artworks, this`currentPage, this`hasMorePages, this`errorMessage, this`isLoading
      ensures !isLoading
      ensures outcome.Success? ==> artworks == outcome.value.records && currentPage == 1
                                   && hasMorePages == HasNextPage(outcome.value.info) && errorMessage == old(errorMessage)
      ensures outcome.Failure? ==> artworks == old(artworks) && currentPage == old(currentPage)
                                   && hasMorePages == old(hasMorePages)
                                   && errorMessage == APIClient.LocalizedDescription(outcome.error)
    {
      match outcome {
        case Success(response) =>
          artworks := response.records;
          currentPage := 1;
          hasMorePages := HasNextPage(response.info);
        case Failure(failure) =>
          errorMessage := APIClient.LocalizedDescription(failure);
      }
      isLoading := false;
    }

    /** Start of `refreshArtworks`: reset the list and the cursor, then reload the remembered artist. */
    method BeginRefresh() returns (request: Option<APIClient.Request>)
      modifies this`artworks, this`currentPage, this`hasMorePages, this`currentArtistId, this`isLoading, this`errorMessage
      ensures artworks == [] && currentPage == 1 && hasMorePages && isLoading
      ensures currentArtistId == old(currentArtistId)
      ensures old(isLoading) ==> request.None? && errorMessage == old(errorMessage)
      ensures !old(isLoading) ==> request == Some(APIClient.FetchArtworksByArtist(currentArtistId, 1, APIClient.DefaultSize))
                                  && errorMessage == ""
    {
      artworks := [];
      currentPage := 1;
      hasMorePages := true;
      request := BeginLoad(currentArtistId);
    }

    /** Start of `loadMoreArtworks`: guarded like the other cursors; the next page is requested for the remembered artist. */
    method BeginLoadMore() returns (request: Option<APIClient.Request>)
      modifies this`isLoadingMore
      ensures old(isLoadingMore) || !hasMorePages ==> request.None? && isLoadingMore == old(isLoadingMore)
      ensures !old(isLoadingMore) && hasMorePages ==>
                isLoadingMore && request == Some(APIClient.FetchArtworksByArtist(currentArtistId, currentPage + 1, APIClient.DefaultSize))
    {
      if isLoadingMore || !hasMorePages {
        return None;
      }
      isLoadingMore := true;
      request := Some(APIClient.FetchArtworksByArtist(currentArtistId, currentPage + 1, APIClient.DefaultSize));
    }

    /** End of `loadMoreArtworks` for the requested page `nextPage`: append and advance, or record the failure. */
    method FinishLoadMore(nextPage: int, outcome: Outcome)
      modifies this`artworks, this`currentPage, this`hasMorePages, this`errorMessage, this`isLoadingMore
      ensures !isLoadingMore
      ensures outcome.Success? ==> artworks == old(artworks) + outcome.value.records && currentPage == nextPage
                                   && hasMorePages == HasNextPage(outcome.value.info) && errorMessage == old(errorMessage)
      ensures outcome.Failure? ==> artworks == old(artworks) && currentPage == old(currentPage)
                                   && hasMorePages == old(hasMorePages)
                                   && errorMessage == APIClient.LocalizedDescription(outcome.error)
    {
      match outcome {
        case Success(response) =>
          artworks := artworks + response.records;
          currentPage := nextPage;
          hasMorePages := HasNextPage(response.info);
        case Failure(failure) =>
          errorMessage := APIClient.LocalizedDescription(failure);
      }
      isLoadingMore := false;
    }

    /** `clearError`: back to the empty message. */
    method ClearError()
      modifies this`errorMessage
      ensures errorMessage == ""
    {
      errorMessage := "";
    }
  }

  /**
   * A load for another artist that arrives while a load is running is dropped entirely: the
   * remembered artist stays the first one, so a later refresh reloads the first artist.
   */
  method SecondArtistWhileLoading(first: int, second: int)
    returns (dropped: Option<APIClient.Request>, refreshed: Option<APIClient.Request>)
    ensures dropped.None?
    ensures refreshed == Some(APIClient.FetchArtworksByArtist(first, 1, APIClient.DefaultSize))
  {
    var state := new ArtistDetailState();
    var request := state.BeginLoad(first);
    dropped := state.BeginLoad(second);
    state.FinishLoad(Failure(APIClient.Api(APIClient.InvalidResponse)));
    refreshed := state.BeginRefresh();
  }

  /** Load-more after a first page asks for page 2 of the remembered artist and appends it. */
  method LoadTwoPages(artistId: int, first: Response<ArtworkModel.Artwork>, second: Response<ArtworkModel.Artwork>)
    returns (artworks: seq<ArtworkModel.Artwork>, page: int, secondRequest: Option<APIClient.Request>)
    requires HasNextPage(first.info)
    ensures artworks == first.records + second.records && page == 2
    ensures secondRequest == Some(APIClient.FetchArtworksByArtist(artistId, 2, APIClient.DefaultSize))
  {
    var state := new ArtistDetailState();
    var request := state.BeginLoad(artistId);
    state.FinishLoad(Success(first));
    secondRequest := state.BeginLoadMore();
    state.FinishLoadMore(2, Success(second));
    artworks, page := state.artworks, state.currentPage;
  }
}
