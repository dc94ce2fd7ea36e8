/**
 * The artwork search cursor (HarvardArtAPP/Features/Search/SearchViewModel.swift). Queries
 * are trimmed; a new query resets the cursor; load-more continues the current query.
 *
 * Each `async` method is split at its `await` into `BeginX` (guard and the statements before
 * the request; returns the request it would send) and `FinishX` (the statements after it,
 * given what the request returned or threw and whether its `Task` had been cancelled).
 */
module SearchViewModel {
  import opened Wrappers
  import opened Text
  import opened APIResponse
  import APIClient
  import ArtworkModel

  type Outcome = Result<Response<ArtworkModel.Artwork>, APIClient.RequestFailure>

  class SearchState {
    var artworks: seq<ArtworkModel.Artwork>
    var isLoading: bool
    var isLoadingMore: bool
    var errorMessage: Option<string>
    var currentQuery: string
    var currentPage: int
    var hasMorePages: bool

    constructor ()
      ensures artworks == [] && !isLoading && !isLoadingMore && errorMessage.None?
      ensures currentQuery == "" && currentPage == 1 && hasMorePages
    {
      artworks := [];
      isLoading := false;
      isLoadingMore := false;
      errorMessage := None;
      currentQuery := "";
      currentPage := 1;
      hasMorePages := true;
    }

    /**
     * Start of `search`: a query that trims to nothing changes nothing. A different trimmed
     * query resets the list and the cursor and becomes the current query, even when a search
     * is already running, in which case nothing is requested. Otherwise page 1 of the trimmed
     * query is requested.
     */
    method BeginSearch(query: string) returns (request: Option<APIClient.Request>)
      modifies this`artworks, this`currentPage, this`hasMorePages, this`currentQuery, this`isLoading, this`errorMessage
      ensures Trim(query) == "" ==>
                request.None? && artworks == old(artworks) && currentPage == old(currentPage)
                && hasMorePages == old(hasMorePages) && currentQuery == old(currentQuery)
                && isLoading == old(isLoading) && errorMessage == old(errorMessage)
      ensures Trim(query) != "" ==> currentQuery == Trim(query)
      ensures Trim(query) != "" && Trim(query) != old(currentQuery) ==> artworks == [] && currentPage == 1 && hasMorePages
      ensures Trim(query) != "" && Trim(query) == old(currentQuery) ==>
                artworks == old(artworks) && currentPage == old(currentPage) && hasMorePages == old(hasMorePages)
      ensures Trim(query) != "" && old(isLoading) ==> request.None? && isLoading && errorMessage == old(errorMessage)
      ensures Trim(query) != "" && !old(isLoading) ==>
                request == Some(APIClient.SearchArtworks(Trim(query), 1, APIClient.DefaultSize)) && isLoading && errorMessage.None?
    {
      var trimmed := Trim(query);
      request := None;
      if trimmed != "" {
        if trimmed != currentQuery {
          artworks := [];
          currentPage := 1;
          hasMorePages := true;
          currentQuery := trimmed;
        }
        if !isLoading {
          isLoading := true;
          errorMessage := None;
          request := Some(APIClient.SearchArtworks(trimmed, 1, APIClient.DefaultSize));
        }
      }
    }

    /**
     * End of `search`: page 1 replaces the results; a failure keeps them and is reported
     * only if its `Task` was not cancelled. Loading ends either way.
     */
    method FinishSearch(outcome: Outcome, cancelled: bool)
      modifies this`artworks, this`currentPage, this`hasMorePages, this`errorMessage, this`isLoading
      ensures !isLoading
      ensures outcome.Success? ==> artworks == outcome.value.records && currentPage == 1
                                   && hasMorePages == HasNextPage(outcome.value.info) && errorMessage == old(errorMessage)
      ensures outcome.Failure? ==> artworks == old(artworks) && currentPage == old(currentPage) && hasMorePages == old(hasMorePages)
      ensures outcome.Failure? && cancelled ==> errorMessage == old(errorMessage)
      ensures outcome.Failure? && !cancelled ==> errorMessage == Some(APIClient.LocalizedDescription(outcome.error))
    {
      match outcome {
        case Success(response) =>
          artworks := response.records;
          currentPage := 1;
          hasMorePages := HasNextPage(response.info);
        case Failure(failure) =>
          if !cancelled {
            errorMessage := Some(APIClient.LocalizedDescription(failure));
          }
      }
      isLoading := false;
    }

    /** Start of `loadMoreResults`: guarded also by a non-empty current query; requests its next page. */
    method BeginLoadMore() returns (request: Option<APIClient.Request>)
      modifies this`isLoadingMore
      ensures old(isLoadingMore) || !hasMorePages || currentQuery == "" ==>
                request.None? && isLoadingMore == old(isLoadingMore)
      ensures !old(isLoadingMore) && hasMorePages && currentQuery != "" ==>
                isLoadingMore && request == Some(APIClient.SearchArtworks(currentQuery, currentPage + 1, APIClient.DefaultSize))
    {
      if isLoadingMore || !hasMorePages || currentQuery == "" {
        return None;
      }
      isLoadingMore := true;
      request := Some(APIClient.SearchArtworks(currentQuery, currentPage + 1, APIClient.DefaultSize));
    }

    /** End of `loadMoreResults` for the requested page `nextPage`: append and advance, or report an uncancelled failure. */
    method FinishLoadMore(nextPage: int, outcome: Outcome, cancelled: bool)
      modifies this`artworks, this`currentPage, this`hasMorePages, this`errorMessage, this`isLoadingMore
      ensures !isLoadingMore
      ensures outcome.Success? ==> artworks == old(artworks) + outcome.value.records && currentPage == nextPage
                                   && hasMorePages == HasNextPage(outcome.value.info) && errorMessage == old(errorMessage)
      ensures outcome.Failure? ==> artworks == old(artworks) && currentPage == old(currentPage) && hasMorePages == old(hasMorePages)
      ensures outcome.Failure? && cancelled ==> errorMessage == old(errorMessage)
      ensures outcome.Failure? && !cancelled ==> errorMessage == Some(APIClient.LocalizedDescription(outcome.error))
    {
      match outcome {
        case Success(response) =>
          artworks := artworks + response.records;
          currentPage := nextPage;
          hasMorePages := HasNextPage(response.info);
        case Failure(failure) =>
          if !cancelled {
            errorMessage := Some(APIClient.LocalizedDescription(failure));
          }
      }
      isLoadingMore := false;
    }

    /** `clearResults`: no results, no query, the cursor reset and no error; the loading flags are left alone. */
    method ClearResults()
      modifies this`artworks, this`currentQuery, this`currentPage, this`hasMorePages, this`errorMessage
      ensures artworks == [] && currentQuery == "" && currentPage == 1 && hasMorePages && errorMessage.None?
    {
      artworks := [];
      currentQuery := "";
      currentPage := 1;
      hasMorePages := true;
      errorMessage := None;
    }

    /**
     * `scheduleSearch`: a query that trims to nothing clears the results at once; any other
     * query is handed to a debounced search of its trimmed form, which is returned.
     */
    method ScheduleSearch(query: string) returns (scheduled: Option<string>)
      modifies this`artworks, this`currentQuery, this`currentPage, this`hasMorePages, this`errorMessage
      ensures Trim(query) == "" ==> scheduled.None? && artworks == [] && currentQuery == ""
                                    && currentPage == 1 && hasMorePages && errorMessage.None?
      ensures Trim(query) != "" ==> scheduled == Some(Trim(query)) && artworks == old(artworks)
                                    && currentQuery == old(currentQuery) && currentPage == old(currentPage)
                                    && hasMorePages == old(hasMorePages) && errorMessage == old(errorMessage)
    {
      var trimmed := Trim(query);
      if trimmed == "" {
        ClearResults();
        return None;
      }
      scheduled := Some(trimmed);
    }

    /** `clearError`. */
    method ClearError()
      modifies this`errorMessage
      ensures errorMessage.None?
    {
      errorMessage := None;
    }
  }

  /**
   * Typing a new query while a search is running drops the new request but still resets the
   * results and makes the new query current.
   */
  method NewQueryWhileLoading(first: string, second: string)
    returns (dropped: Option<APIClient.Request>, artworks: seq<ArtworkModel.Artwork>, currentQuery: string)
    requires Trim(first) != "" && Trim(second) != "" && Trim(first) != Trim(second)
    ensures dropped.None? && artworks == [] && currentQuery == Trim(second)
  {
    var state := new SearchState();
    var request := state.BeginSearch(first);
    dropped := state.BeginSearch(second);
    artworks, currentQuery := state.artworks, state.currentQuery;
  }

  /** A search for `query` followed by a second page: both pages shown, page 2 current, idle. */
  method SearchTwoPages(query: string, first: Response<ArtworkModel.Artwork>, second: Response<ArtworkModel.Artwork>)
    returns (state: SearchState)
    requires Trim(query) != "" && HasNextPage(first.info)
    ensures fresh(state)
    ensures state.currentQuery == Trim(query) && !state.isLoading && !state.isLoadingMore
    ensures state.artworks == first.records + second.records && state.currentPage == 2
  {
    state := new SearchState();
    var request := state.BeginSearch(query);
    state.FinishSearch(Success(first), false);
    var more := state.BeginLoadMore();
    state.FinishLoadMore(2, Success(second), false);
  }

  /**
   * Searching again for the same query, up to surrounding whitespace (`query + " "`, say),
   * after a first page and a second keeps nothing of the second page: the repeated search
   * refetches page 1.
   */
  method RepeatSearch(query: string, repeated: string, first: Response<ArtworkModel.Artwork>, second: Response<ArtworkModel.Artwork>)
    returns (again: Option<APIClient.Request>, artworks: seq<ArtworkModel.Artwork>, page: int)
    requires Trim(query) != "" && Trim(repeated) == Trim(query) && HasNextPage(first.info)
    ensures again == Some(APIClient.SearchArtworks(Trim(query), 1, APIClient.DefaultSize))
    ensures artworks == first.records && page == 1
  {
    var state := SearchTwoPages(query, first, second);
    again := state.BeginSearch(repeated);
    state.FinishSearch(Success(first), false);
    artworks, page := state.artworks, state.currentPage;
  }
}
