# HarvardArtAPP in Dafny

This project is a Dafny model of the logic of HarvardArtAPP, a SwiftUI app for browsing the catalogue of the Harvard Art Museums. The model covers:

- **the catalogue records and their display fallbacks**: `Artwork`, `Exhibition`, `Person`, `Classification`, the paging envelope `PageInfo`, and the `SearchResult` union over the four kinds of record;
- **the catalogue client**: the query items each of the seven requests sends, and the ordered guard chain that turns what the network returned into a decoded page or an `APIError`;
- **the overview generator**: the prompt it builds from an artwork and its exhibition, and the guard chain over the model service's reply;
- **the four paging cursors** behind the Browse, Exhibition, Artist and Search screens, and the state of the overview panel;
- **the two persisted stores**: favourites, and the ten most recent searches;
- **the screen logic** that is more than layout: the favourites filter and section order, the artist and artwork detail fallbacks, the search categories and chips, and the three-state appearance setting.

Each Swift file of the core becomes one Dafny module. Pure computed properties and switches become functions, with lemmas for the properties they promise. Objects whose methods update their fields in place become classes with `modifies` frames:

- the view models;
- the two stores;
- the appearance manager;
- the search screen's state.

Each `async` method is split at its `await` into two methods:

- `BeginX` runs the guard and the statements before the request, and returns the request it would send (`APIClient.Request`) or `None`;
- `FinishX` runs the statements after it, given what the request returned or threw.

Methods outside the classes drive a fresh object through a whole scenario. Examples are "page 1 then page 2", "toggle twice" and "three toggles".

Values that come from outside the app are inputs to the model:

- the network's reply (`APIClient.Transport`), and whether `URLComponents` builds a URL;
- the search task's cancellation flag;
- the fresh UUID and the current date of a history entry;
- the stored user-defaults blobs, which are `Option` arguments of the constructors.

Each save writes the store's `saved` field.

Shared helpers live in three modules:

- `Wrappers`: `Option` and `Result`;
- `Text`: trimming, lower-casing, substring search, joining, decimal rendering of integers, and code-point order;
- `Seqs`: filtering and subsequences.

## Model

| member | source | states |
|---|---|---|
| `APIResponse.HasNextPage` | HarvardArtAPP/Models/APIResponse.swift:23-25 | there is a next page exactly when the current page is before the last |
| `APIResponse.HasPreviousPage` | HarvardArtAPP/Models/APIResponse.swift:27-29 | there is a previous page exactly when the current page is after page 1 |
| `APIResponse.LastPageHasNoNext` | HarvardArtAPP/Models/APIResponse.swift:23-25 | on the last page or past it there is no next page, so a cursor that receives it stops paging |
| `APIResponse.MockSinglePage` | HarvardArtAPP/Support/MockData.swift:76-83 | the single-page mock envelope (page 1 of 1) has neither a next nor a previous page |
| `PersonModel.EffectiveName` | HarvardArtAPP/Models/Person.swift:15-20 | a non-empty display name wins; otherwise the plain name; nil exactly when both are missing (an empty display name counts as missing); an empty result can only come from an empty plain name |
| `ArtworkModel.DisplayTitle` | HarvardArtAPP/Models/Artwork.swift:24-26 | the title, or "Untitled" when it is nil; an empty title stays empty |
| `ArtworkModel.EffectiveNames` | HarvardArtAPP/Models/Artwork.swift:30 | every name kept is the effective name of some person, every person's effective name is kept, and there are no more names than people |
| `ArtworkModel.EffectiveNamesAppend` | HarvardArtAPP/Models/Artwork.swift:30 | the names keep the people's order: the names of two lists of people in a row are the first list's names followed by the second's |
| `ArtworkModel.ArtistNames` | HarvardArtAPP/Models/Artwork.swift:28-31 | the names are all non-empty and each is some person's effective name; every non-empty effective name occurs exactly as often as among the effective names, which they are a subsequence of, so repeated names are kept in order; there are none when `people` is nil or empty |
| `ArtworkModel.DisplayArtist` | HarvardArtAPP/Models/Artwork.swift:28-34 | never empty; "Unknown Artist" when there is no name; otherwise the names joined with ", ", so the name itself when there is one; every artist name occurs in it |
| `ArtworkModel.DisplayArtistOfPeople` | HarvardArtAPP/Models/Artwork.swift:28-34 | "Unknown Artist" when no person has a non-empty effective name; otherwise the joined names, in which every such person's name occurs |
| `ArtworkModel.DisplayDate` | HarvardArtAPP/Models/Artwork.swift:36-38 | `dated` when present, even when empty; otherwise "Date unknown" |
| `ArtworkModel.DisplayDescription` | HarvardArtAPP/Models/Artwork.swift:40-48 | a non-empty description, else a non-empty label text, else "No description available"; never empty; always one of those three |
| `ArtworkModel.ImageURL` | HarvardArtAPP/Models/Artwork.swift:50-53 | absent exactly when `primaryimageurl` is nil or empty; when present it is that string |
| `ArtworkModel.JsonKey` | HarvardArtAPP/Models/Artwork.swift:56-64 | `id` is decoded from "objectid"; exactly the two provenance fields have no key |
| `ArtworkModel.JsonKeysDistinct` | HarvardArtAPP/Models/Artwork.swift:56-64 | no two properties share a JSON key, and none is decoded from "id" |
| `ExhibitionModel.DisplayTitle` | HarvardArtAPP/Models/Exhibition.swift:19-21 | the title, or "Unknown Exhibition" when it is nil |
| `ExhibitionModel.DisplayDescription` | HarvardArtAPP/Models/Exhibition.swift:23-25 | the description, even when empty, or "No description available" when it is nil |
| `ExhibitionModel.DisplayDateRange` | HarvardArtAPP/Models/Exhibition.swift:27-40 | "b - e" when both bounds are non-empty, "From b" or "Until e" for one bound, "Date unknown" otherwise; never empty |
| `ExhibitionModel.NilDateIsEmptyDate` | HarvardArtAPP/Models/Exhibition.swift:28-29 | a nil date bound gives the same range as an empty one |
| `ExhibitionModel.ImageURL` | HarvardArtAPP/Models/Exhibition.swift:42-45 | absent exactly when `primaryimageurl` is nil or empty |
| `ClassificationModel.DisplayName` | HarvardArtAPP/Models/Classification.swift:15-17 | the name, or "Unknown Medium" when it is nil |
| `ClassificationModel.DisplayCount` | HarvardArtAPP/Models/Classification.swift:19-24 | "<n> objects" when the count is known; empty exactly when it is nil |
| `ClassificationModel.DisplayCountInjective` | HarvardArtAPP/Models/Classification.swift:19-24 | two known counts are displayed alike only when they are equal |
| `ClassificationModel.JsonKey` | HarvardArtAPP/Models/Classification.swift:26-30 | `id`, and only `id`, is decoded from "classificationid" |
| `SearchResults.Id` | HarvardArtAPP/Models/SearchResult.swift:16-33 | the kind's tag ("artwork_", "exhibition_", "artist_", "medium_") followed by at least one more character, the number |
| `SearchResults.IdInjective` | HarvardArtAPP/Models/SearchResult.swift:16-33 | equal ids mean the same kind and the same number, so ids of different kinds never collide |
| `SearchResults.Title` | HarvardArtAPP/Models/SearchResult.swift:35-46 | the kind's display title: the artwork's and exhibition's `DisplayTitle`, the artist's effective name (or ""), the medium's `DisplayName`; it is empty only when the record's own name is the empty string, or an artist has no name |
| `SearchResults.Subtitle` | HarvardArtAPP/Models/SearchResult.swift:48-59 | the artwork's `DisplayArtist`, the exhibition's `DisplayDateRange`, the artist's object-count text, the medium's `DisplayCount`; never empty for artworks and exhibitions; for a medium, empty exactly when its object count is unknown |
| `SearchResults.Description` | HarvardArtAPP/Models/SearchResult.swift:61-72 | the artwork's and exhibition's `DisplayDescription`, the artist's role or "", and "Medium/Classification" for a medium; never empty for artworks and mediums; an artist's is empty exactly when the role is nil or empty; an exhibition's is empty exactly when its description is the empty string |
| `SearchResults.ImageURL` | HarvardArtAPP/Models/SearchResult.swift:74-83 | only artworks and exhibitions have an image, never an empty one, and they have one exactly when the record's image string is non-empty |
| `APIClient.EnhancedQuery` | HarvardArtAPP/Networking/APIClient.swift:63 | the user's query is kept as a prefix, followed by " AND (" and the quality terms in parentheses |
| `APIClient.Endpoint` | HarvardArtAPP/Networking/APIClient.swift:32-116 | the three artwork requests hit `/object`, the exhibition list and search `/exhibition`, the people search `/person`, the classification search `/classification` |
| `APIClient.ComponentsString` | HarvardArtAPP/Networking/APIClient.swift:130-135 | the string the URL is built from is the base URL followed by the request's path |
| `APIClient.Lookup` | HarvardArtAPP/Networking/APIClient.swift:34-39 | a query item is found exactly when some item has that name |
| `APIClient.LookupAt` | HarvardArtAPP/Networking/APIClient.swift:34-39 | the first item with a name is the one found |
| `APIClient.QueryItems` | HarvardArtAPP/Networking/APIClient.swift:32-123 | every request sends at least four items, the API key first |
| `APIClient.SendsKeyPageAndSize` | HarvardArtAPP/Networking/APIClient.swift:32-123 | every request sends its key, and sends page and size as the decimal renderings of its arguments |
| `APIClient.SendsHasImageIffArtworkRequest` | HarvardArtAPP/Networking/APIClient.swift:47-126 | `hasimage=1` is sent by exactly the three artwork requests |
| `APIClient.ObjectEndpointIffHasImage` | HarvardArtAPP/Networking/APIClient.swift:47-126 | a request goes to `/object` exactly when it sends `hasimage=1` |
| `APIClient.SendsSearchTerm` | HarvardArtAPP/Networking/APIClient.swift:32-113 | `q` is the fixed quality terms for the exhibition list, the enhanced query for artwork and exhibition searches, the raw query for people and classifications, and absent for the scoped artwork requests |
| `APIClient.ScopedRequestsSendId` | HarvardArtAPP/Networking/APIClient.swift:47-126 | the exhibition-scoped request sends its exhibition id, and the artist-scoped request its person id, in decimal |
| `APIClient.PerformRequest` | HarvardArtAPP/Networking/APIClient.swift:130-178 | success exactly when the key is non-empty, the URL builds, the response is HTTP with status 200...299 and the body decodes, and then the result is the decoded body; an empty key fails with `missingAPIKey` before anything else; then a URL that does not build fails with `invalidURL` |
| `APIClient.PerformRequestFailureOrder` | HarvardArtAPP/Networking/APIClient.swift:138-177 | once the key and URL are fine, the first failing step decides: a thrown transport error passes through, then `invalidResponse`, then `httpError(status)` outside 200...299, then `decodingError` |
| `APIClient.ErrorDescription` | HarvardArtAPP/Networking/APIClient.swift:190-203 | the HTTP message is "HTTP error: " plus the status code; the decoding message wraps the decoder's text |
| `APIClient.ErrorDescriptionDistinguishes` | HarvardArtAPP/Networking/APIClient.swift:190-203 | apart from decoding errors, equal messages mean equal errors, so the status code can be read back from an HTTP message |
| `APIClient.HttpMessageInitial` | HarvardArtAPP/Networking/APIClient.swift:190-203 | only the HTTP message starts with 'H' |
| `APIClient.LocalizedDescription` | HarvardArtAPP/Networking/APIClient.swift:190-203 | an `APIError` is shown by its description, and a transport error by its own text |
| `GeminiService.DetailLines` | HarvardArtAPP/Networking/GeminiService.swift:86-101 | a prompt has three to five detail lines |
| `GeminiService.LineFieldsDiffer` | HarvardArtAPP/Networking/GeminiService.swift:89-100 | a detail line cannot be read as the line of a field whose name differs from its own |
| `GeminiService.DetailLinesContent` | HarvardArtAPP/Networking/GeminiService.swift:86-101 | Title, Artist and Date lines come first, in that order; a Description line is present exactly for a real description; an Exhibition line is present exactly for a real exhibition title, and is then the last line |
| `GeminiService.HasLineConcat` | HarvardArtAPP/Networking/GeminiService.swift:95-101 | appending lines keeps every line found before, and adds exactly the appended ones |
| `GeminiService.OptionalLine` | HarvardArtAPP/Networking/GeminiService.swift:95-101 | an optional Description or Exhibition line carries its own field exactly when it is added, and never the other field |
| `GeminiService.FixedLinesAreNotOptional` | HarvardArtAPP/Networking/GeminiService.swift:86-93 | the Title, Artist and Date lines are never taken for a Description or Exhibition line |
| `GeminiService.DescriptionLineIffReal` | HarvardArtAPP/Networking/GeminiService.swift:95-97 | since the display description is never empty, only its placeholder keeps the Description line out |
| `GeminiService.CreatePrompt` | HarvardArtAPP/Networking/GeminiService.swift:85-109 | the prompt equals the introduction, the detail lines of the artwork's and exhibition's display fields joined by newlines, and the closing paragraph |
| `GeminiService.BuildPrompt` | HarvardArtAPP/Networking/GeminiService.swift:86-106 | the literal with three lines followed by the conditional `+=` steps and the closing `+=` yields the introduction, the joined detail lines and the closing paragraph |
| `GeminiService.FixedLinesJoin` | HarvardArtAPP/Networking/GeminiService.swift:86-93 | the initial prompt literal is the introduction and the first three lines joined |
| `GeminiService.GenerateOverview` | HarvardArtAPP/Networking/GeminiService.swift:28-83 | success exactly when the key is non-empty, the URL builds, encoding succeeds, status is exactly 200, the body decodes and has a first part of a first candidate, which is then the result; an empty key fails with `missingAPIKey` first |
| `GeminiService.GenerateOverviewClassification` | HarvardArtAPP/Networking/GeminiService.swift:64-82 | any status but 200 (2xx included) is `apiError(status)`; an empty reply surfaces as `decodingError` wrapping `noContent`; `noContent` itself is never thrown out |
| `GeminiService.ErrorDescription` | HarvardArtAPP/Networking/GeminiService.swift:143-160 | the status message carries the status code, and the decoding message wraps its cause's text |
| `GeminiService.LocalizedDescription` | HarvardArtAPP/Networking/GeminiService.swift:143-160 | a `GeminiError` is shown by its description, a transport error by its own text |
| `GeminiService.EmptyReplyMessage` | HarvardArtAPP/Networking/GeminiService.swift:71-82 | an empty reply shows "Failed to decode response: No content received from API", which differs from the message of `noContent` |
| `ArtworkOverviewViewModel.OverviewState.constructor` | HarvardArtAPP/Features/ArtworkDetail/ArtworkOverviewViewModel.swift:12-15 | there is no overview, no error, nothing generated and nothing loading |
| `ArtworkOverviewViewModel.OverviewState.BeginGenerate` | HarvardArtAPP/Features/ArtworkDetail/ArtworkOverviewViewModel.swift:19-21 | with no guard, loading starts and the error is cleared |
| `ArtworkOverviewViewModel.OverviewState.FinishGenerate` | HarvardArtAPP/Features/ArtworkDetail/ArtworkOverviewViewModel.swift:23-33 | success stores the text and marks it generated; failure records the message and keeps the overview and the generated flag; loading ends either way |
| `ArtworkOverviewViewModel.OverviewState.ClearOverview` | HarvardArtAPP/Features/ArtworkDetail/ArtworkOverviewViewModel.swift:35-39 | no overview, not generated, no error |
| `ArtworkOverviewViewModel.GenerateOnFreshPanel` | HarvardArtAPP/Features/ArtworkDetail/ArtworkOverviewViewModel.swift:19-33 | a whole generation ends with loading off; success shows the text with no error, and failure shows the failure's message with nothing generated |
| `BrowseViewModel.BrowseState.constructor` | HarvardArtAPP/Features/Browse/BrowseViewModel.swift:12-19 | no exhibitions, page 1, more pages expected, nothing loading, no error |
| `BrowseViewModel.BrowseState.BeginLoad` | HarvardArtAPP/Features/Browse/BrowseViewModel.swift:21-28 | nothing happens while loading; otherwise loading starts, the error is cleared and page 1 is requested |
| `BrowseViewModel.BrowseState.FinishLoad` | HarvardArtAPP/Features/Browse/BrowseViewModel.swift:27-37 | success replaces the list with page 1, sets page 1 and takes `hasMorePages` from the page info; failure records the message and keeps list and page; loading ends either way |
| `BrowseViewModel.BrowseState.BeginRefresh` | HarvardArtAPP/Features/Browse/BrowseViewModel.swift:39-44 | empties the list and resets page and `hasMorePages` before the load's own start |
| `BrowseViewModel.BrowseState.BeginLoadMore` | HarvardArtAPP/Features/Browse/BrowseViewModel.swift:46-53 | nothing happens while loading more or without more pages; otherwise it requests page `currentPage + 1` |
| `BrowseViewModel.BrowseState.FinishLoadMore` | HarvardArtAPP/Features/Browse/BrowseViewModel.swift:51-62 | success appends the page after the existing records and advances to it; failure records the message and keeps list and page; loading more ends either way |
| `BrowseViewModel.BrowseState.ClearError` | HarvardArtAPP/Features/Browse/BrowseViewModel.swift:64-66 | the error is nil and nothing else changes |
| `BrowseViewModel.LoadTwoPages` | HarvardArtAPP/Features/Browse/BrowseViewModel.swift:21-62 | page 1 then load-more requests page 2 and shows both pages' records in order on page 2 |
| `BrowseViewModel.LoadMoreAfterLastPage` | HarvardArtAPP/Features/Browse/BrowseViewModel.swift:31-47 | after a last page, load-more sends nothing and changes nothing |
| `BrowseViewModel.FailedRefresh` | HarvardArtAPP/Features/Browse/BrowseViewModel.swift:32-44 | a refresh whose request fails ends with an empty list, page 1 and the failure's message |
| `ExhibitionDetailViewModel.ExhibitionDetailState.constructor` | HarvardArtAPP/Features/ExhibitionDetail/ExhibitionDetailViewModel.swift:22-24 | the state is bound to the given exhibition, with no artworks, page 1 and more pages expected |
| `ExhibitionDetailViewModel.ExhibitionDetailState.BeginLoad` | HarvardArtAPP/Features/ExhibitionDetail/ExhibitionDetailViewModel.swift:26-36 | nothing happens while loading; otherwise page 1 of the bound exhibition is requested |
| `ExhibitionDetailViewModel.ExhibitionDetailState.FinishLoad` | HarvardArtAPP/Features/ExhibitionDetail/ExhibitionDetailViewModel.swift:36-45 | success replaces the artworks with page 1; failure records the message and keeps artworks and page; loading ends |
| `ExhibitionDetailViewModel.ExhibitionDetailState.BeginRefresh` | HarvardArtAPP/Features/ExhibitionDetail/ExhibitionDetailViewModel.swift:47-52 | resets artworks, page and `hasMorePages`, then starts a load |
| `ExhibitionDetailViewModel.ExhibitionDetailState.BeginLoadMore` | HarvardArtAPP/Features/ExhibitionDetail/ExhibitionDetailViewModel.swift:54-64 | guarded by `!isLoadingMore && hasMorePages`; requests the next page of the bound exhibition |
| `ExhibitionDetailViewModel.ExhibitionDetailState.FinishLoadMore` | HarvardArtAPP/Features/ExhibitionDetail/ExhibitionDetailViewModel.swift:64-73 | success appends and advances to the requested page; failure keeps artworks and page; loading more ends |
| `ExhibitionDetailViewModel.ExhibitionDetailState.ClearError` | HarvardArtAPP/Features/ExhibitionDetail/ExhibitionDetailViewModel.swift:75-77 | the error is nil |
| `ExhibitionDetailViewModel.LoadTwoPages` | HarvardArtAPP/Features/ExhibitionDetail/ExhibitionDetailViewModel.swift:22-73 | both requests are for the exhibition fixed at creation (pages 1 and 2), and both pages' records are shown in order |
| `ArtistDetailViewModel.ArtistDetailState.constructor` | HarvardArtAPP/Features/ArtistDetail/ArtistDetailViewModel.swift:12-20 | no artworks, empty error text, page 1, artist 0 |
| `ArtistDetailViewModel.ArtistDetailState.BeginLoad` | HarvardArtAPP/Features/ArtistDetail/ArtistDetailViewModel.swift:22-30 | while loading nothing changes, not even the remembered artist; otherwise the artist is remembered, the error text emptied, and page 1 of that artist requested |
| `ArtistDetailViewModel.ArtistDetailState.FinishLoad` | HarvardArtAPP/Features/ArtistDetail/ArtistDetailViewModel.swift:29-39 | success replaces the artworks with page 1; failure records the message and keeps the artworks; loading ends |
| `ArtistDetailViewModel.ArtistDetailState.BeginRefresh` | HarvardArtAPP/Features/ArtistDetail/ArtistDetailViewModel.swift:41-46 | resets the cursor and reloads the remembered artist |
| `ArtistDetailViewModel.ArtistDetailState.BeginLoadMore` | HarvardArtAPP/Features/ArtistDetail/ArtistDetailViewModel.swift:48-55 | guarded by `!isLoadingMore && hasMorePages`; requests the next page of the remembered artist |
| `ArtistDetailViewModel.ArtistDetailState.FinishLoadMore` | HarvardArtAPP/Features/ArtistDetail/ArtistDetailViewModel.swift:53-64 | success appends and advances by one page; failure keeps the artworks; loading more ends |
| `ArtistDetailViewModel.ArtistDetailState.ClearError` | HarvardArtAPP/Features/ArtistDetail/ArtistDetailViewModel.swift:66-68 | "no error" is the empty string |
| `ArtistDetailViewModel.SecondArtistWhileLoading` | HarvardArtAPP/Features/ArtistDetail/ArtistDetailViewModel.swift:22-45 | a load for another artist during a load is dropped entirely, so a later refresh reloads the first artist |
| `ArtistDetailViewModel.LoadTwoPages` | HarvardArtAPP/Features/ArtistDetail/ArtistDetailViewModel.swift:22-64 | load-more after page 1 asks for page 2 of the same artist and appends it |
| `SearchViewModel.SearchState.constructor` | HarvardArtAPP/Features/Search/SearchViewModel.swift:12-20 | no results, no query, page 1, more pages expected |
| `SearchViewModel.SearchState.BeginSearch` | HarvardArtAPP/Features/Search/SearchViewModel.swift:49-67 | a blank query changes nothing; a different trimmed query resets list and cursor and becomes current even while loading; while loading nothing is requested; otherwise page 1 of the trimmed query is requested |
| `SearchViewModel.SearchState.FinishSearch` | HarvardArtAPP/Features/Search/SearchViewModel.swift:66-79 | success replaces the results with page 1; a failure keeps them and is reported only when its `Task` was not cancelled; loading ends either way |
| `SearchViewModel.SearchState.BeginLoadMore` | HarvardArtAPP/Features/Search/SearchViewModel.swift:81-88 | nothing happens while loading more, without more pages or without a current query; otherwise the next page of the current query is requested |
| `SearchViewModel.SearchState.FinishLoadMore` | HarvardArtAPP/Features/Search/SearchViewModel.swift:86-100 | success appends and advances; a failure keeps the results and is reported only when not cancelled; loading more ends |
| `SearchViewModel.SearchState.ClearResults` | HarvardArtAPP/Features/Search/SearchViewModel.swift:102-109 | no results, no query, page 1, more pages expected, no error |
| `SearchViewModel.SearchState.ScheduleSearch` | HarvardArtAPP/Features/Search/SearchViewModel.swift:23-47 | a blank query clears the results at once; any other query schedules a search of its trimmed form and changes nothing yet |
| `SearchViewModel.SearchState.ClearError` | HarvardArtAPP/Features/Search/SearchViewModel.swift:111-113 | the error is nil |
| `SearchViewModel.NewQueryWhileLoading` | HarvardArtAPP/Features/Search/SearchViewModel.swift:53-61 | a new query during a running search requests nothing, yet clears the results and becomes the current query |
| `SearchViewModel.SearchTwoPages` | HarvardArtAPP/Features/Search/SearchViewModel.swift:49-100 | a search followed by a load-more shows the first page's records then the second's, with page 2 current, the trimmed query current and nothing loading |
| `SearchViewModel.RepeatSearch` | HarvardArtAPP/Features/Search/SearchViewModel.swift:49-100 | searching again, after two pages, for any text that trims to the same query refetches page 1 and keeps only its records |
| `SearchView.RawValue` | HarvardArtAPP/Features/Search/SearchView.swift:10-16 | every category has a non-empty raw value |
| `SearchView.FromRawValue` | HarvardArtAPP/Features/Search/SearchView.swift:10-16 | a category found from a raw value has that raw value |
| `SearchView.RawValueRoundTrip` | HarvardArtAPP/Features/Search/SearchView.swift:10-16 | every category survives the trip through its raw value |
| `SearchView.AllCasesComplete` | HarvardArtAPP/Features/Search/SearchView.swift:10 | `allCases` lists every category exactly once |
| `SearchView.ChipCategories` | HarvardArtAPP/Features/Search/SearchView.swift:130 | the chips are exactly the categories other than `.all`, in declaration order |
| `SearchView.EffectiveCategory` | HarvardArtAPP/Features/Search/SearchView.swift:239-244 | a search runs in `.all` exactly when no category or `.all` is selected (the same `?? .all` default is used by the text field's handler and the chip action) |
| `SearchView.PlaceholderText` | HarvardArtAPP/Features/Search/SearchView.swift:24-41 | "Search everything" exactly when the effective category is `.all` |
| `SearchView.PlaceholderDistinguishes` | HarvardArtAPP/Features/Search/SearchView.swift:24-41 | each effective category has its own placeholder |
| `SearchView.SearchScreen.constructor` | HarvardArtAPP/Features/Search/SearchView.swift:21-22 | empty text, no category |
| `SearchView.SearchScreen.EditText` | HarvardArtAPP/Features/Search/SearchView.swift:98-100 | the new text is stored and scheduled, untrimmed, in the effective category |
| `SearchView.SearchScreen.TapChip` | HarvardArtAPP/Features/Search/SearchView.swift:135-146 | tapping the selected chip deselects it and tapping another selects it; a search in the new effective category follows exactly when the text is non-empty, untrimmed |
| `SearchView.SearchScreen.PerformSearch` | HarvardArtAPP/Features/Search/SearchView.swift:239-244 | a search is started exactly when the text is not all whitespace, in the effective category |
| `SearchView.SearchScreen.ClearText` | HarvardArtAPP/Features/Search/SearchView.swift:104-108 | the text field is emptied and the view model's `clearResults` runs: no results, no query, page 1, more pages expected, no error; the selected chip and the loading flags are kept |
| `SearchView.TapTwice` | HarvardArtAPP/Features/Search/SearchView.swift:136-140 | tapping a chip twice restores the selection when nothing or that chip was selected, and otherwise ends with nothing selected |
| `SearchView.ChipSearchWithBlankText` | HarvardArtAPP/Features/Search/SearchView.swift:141-146 | with only spaces in the field, a chip tap hands on a search, while submitting (`performSearch`, a guard on the trimmed text) does not |
| `FavoritesStoreModel.DisplayImageURL` | HarvardArtAPP/Persistence/FavoritesStore.swift:81-84 | an image exactly for a non-empty stored image string, which it then is |
| `FavoritesStoreModel.Snapshot` | HarvardArtAPP/Persistence/FavoritesStore.swift:33-42 | the snapshot copies the artwork's id, display title, artist, date and description, its raw image string, and the exhibition's id and display title |
| `FavoritesStoreModel.ContainsId` | HarvardArtAPP/Persistence/FavoritesStore.swift:25-27 | true exactly when some entry has the id |
| `FavoritesStoreModel.FirstIndex` | HarvardArtAPP/Persistence/FavoritesStore.swift:30 | none exactly when no entry has the id; otherwise an index of an entry with that id |
| `FavoritesStoreModel.Toggled` | HarvardArtAPP/Persistence/FavoritesStore.swift:29-47 | a present id loses one entry; an absent id gets its snapshot appended after the unchanged list |
| `FavoritesStoreModel.ToggleRemovesFirst` | HarvardArtAPP/Persistence/FavoritesStore.swift:30-31 | a present id loses its first entry, and the others stay in order |
| `FavoritesStoreModel.DropOneIsSubsequence` | HarvardArtAPP/Persistence/FavoritesStore.swift:31 | removing one entry keeps the others in order |
| `FavoritesStoreModel.ToggleFlipsMembership` | HarvardArtAPP/Persistence/FavoritesStore.swift:29-47 | with unique ids, toggling flips membership of the toggled id and keeps that of every other id |
| `FavoritesStoreModel.ToggleRemovesId` | HarvardArtAPP/Persistence/FavoritesStore.swift:29-31 | with unique ids, unfavouriting removes every entry with the artwork's id |
| `FavoritesStoreModel.ToggleKeepsOtherIds` | HarvardArtAPP/Persistence/FavoritesStore.swift:29-47 | a toggle, removing or appending, never changes whether any other id is a favourite |
| `FavoritesStoreModel.ToggleKeepsIdsUnique` | HarvardArtAPP/Persistence/FavoritesStore.swift:30-43 | ids stay unique, because a snapshot is appended only when no entry has its id |
| `FavoritesStoreModel.ToggleTwiceRestores` | HarvardArtAPP/Persistence/FavoritesStore.swift:29-47 | toggling an absent artwork twice, from any exhibitions, gives back the original list |
| `FavoritesStoreModel.Grouped` | HarvardArtAPP/Persistence/FavoritesStore.swift:49-51 | the keys are exactly the exhibition titles present; each group is non-empty, in list order, and holds only favourites of that title |
| `FavoritesStoreModel.GroupsPartition` | HarvardArtAPP/Persistence/FavoritesStore.swift:49-51 | each group holds every favourite of its title as often as the list does, and nothing else |
| `FavoritesStoreModel.FavoritesStore.constructor` | HarvardArtAPP/Persistence/FavoritesStore.swift:55-60 | the stored list, or the empty list when nothing decodes; nothing is written |
| `FavoritesStoreModel.FavoritesStore.IsFavorite` | HarvardArtAPP/Persistence/FavoritesStore.swift:25-27 | true exactly when some stored favourite has the id |
| `FavoritesStoreModel.FavoritesStore.ToggleFavorite` | HarvardArtAPP/Persistence/FavoritesStore.swift:29-47 | the list becomes `Toggled` of the old one and is saved whole; unique ids stay unique |
| `FavoritesStoreModel.FavoritesStore.GroupedFavorites` | HarvardArtAPP/Persistence/FavoritesStore.swift:49-51 | the groups of the stored favourites, keyed by exactly their titles |
| `FavoritesStoreModel.FavouriteAndUndo` | HarvardArtAPP/Persistence/FavoritesStore.swift:29-47 | favouriting then unfavouriting saves the list with the snapshot appended, then the original list |
| `SearchHistoryStoreModel.TypeRawValue` | HarvardArtAPP/Persistence/SearchHistoryStore.swift:165-170 | every preview kind has a non-empty raw value |
| `SearchHistoryStoreModel.KindOf` | HarvardArtAPP/Persistence/SearchHistoryStore.swift:174-180 | the preview kind names the result's case |
| `SearchHistoryStoreModel.ToPreview` | HarvardArtAPP/Persistence/SearchHistoryStore.swift:172-190 | a preview keeps the result's title, subtitle, description and image, tagged with its kind |
| `SearchHistoryStoreModel.NonEmpty` | HarvardArtAPP/Persistence/SearchHistoryStore.swift:205 | an empty description becomes nil, any other is kept |
| `SearchHistoryStoreModel.ToSearchResult` | HarvardArtAPP/Persistence/SearchHistoryStore.swift:196-245 | the rebuilt result has the preview's kind |
| `SearchHistoryStoreModel.PreviewRoundTrip` | HarvardArtAPP/Persistence/SearchHistoryStore.swift:172-245 | preview to result to preview keeps kind and title and a non-empty artwork or exhibition description; an artist's subtitle comes back as its description |
| `SearchHistoryStoreModel.ResultRoundTrip` | HarvardArtAPP/Persistence/SearchHistoryStore.swift:172-245 | result to preview to result keeps kind and title |
| `SearchHistoryStoreModel.DecodeItem` | HarvardArtAPP/Persistence/SearchHistoryStore.swift:122-130 | a stored item without `isClickedResult` decodes as a typed query; every other field is kept |
| `SearchHistoryStoreModel.EncodeItem` | HarvardArtAPP/Persistence/SearchHistoryStore.swift:132-134 | an encoded item always carries `isClickedResult` |
| `SearchHistoryStoreModel.ItemRoundTrip` | HarvardArtAPP/Persistence/SearchHistoryStore.swift:122-134 | decoding an encoded item gives it back |
| `SearchHistoryStoreModel.DisplayTitle` | HarvardArtAPP/Persistence/SearchHistoryStore.swift:136-142 | a clicked entry with a preview shows the result's title; every other entry shows its query |
| `SearchHistoryStoreModel.DisplayCategory` | HarvardArtAPP/Persistence/SearchHistoryStore.swift:144-146 | always the category's raw value, since both branches give it |
| `SearchHistoryStoreModel.PushFront` | HarvardArtAPP/Persistence/SearchHistoryStore.swift:44-47 | the new item is first, followed by the old list cut to its first nine entries, so there are `min(old + 1, 10)` entries and nothing is cut below ten |
| `SearchHistoryStoreModel.InsertCapped` | HarvardArtAPP/Persistence/SearchHistoryStore.swift:40-47 | inserting at the front and then keeping the first ten entries gives `PushFront`: the new item, then the old list cut to nine |
| `SearchHistoryStoreModel.PushFrontAfterRemoval` | HarvardArtAPP/Persistence/SearchHistoryStore.swift:40-47 | after removing and pushing, no later entry is a removed kind, and the later entries are old ones in their old order |
| `SearchHistoryStoreModel.PrefixIsSubsequence` | HarvardArtAPP/Persistence/SearchHistoryStore.swift:46 | keeping a prefix keeps the order |
| `SearchHistoryStoreModel.AddSearchProperties` | HarvardArtAPP/Persistence/SearchHistoryStore.swift:26-50 | at most ten entries; the first is an unclicked entry for the trimmed query and category, with the result's preview; no later entry repeats that query (ignoring case) in that category; the later entries are the first nine old entries that do not repeat it, in their old order |
| `SearchHistoryStoreModel.BlankSearchChangesNothing` | HarvardArtAPP/Persistence/SearchHistoryStore.swift:27-28 | a query that trims to nothing leaves the list as it was |
| `SearchHistoryStoreModel.AddClickProperties` | HarvardArtAPP/Persistence/SearchHistoryStore.swift:52-74 | at most ten entries; the first is a clicked entry for the untrimmed query showing the result's title; no later entry previews a result of that title (ignoring case); the later entries are the first nine old entries without such a preview, in order; below ten entries every entry without a preview survives |
| `SearchHistoryStoreModel.RemoveProperties` | HarvardArtAPP/Persistence/SearchHistoryStore.swift:76-79 | removing by id drops exactly the entries with that id and keeps the rest in order |
| `SearchHistoryStoreModel.SearchHistoryStore.constructor` | HarvardArtAPP/Persistence/SearchHistoryStore.swift:88-93 | the decoded stored items in order, or the empty list when nothing decodes; nothing is written |
| `SearchHistoryStoreModel.SearchHistoryStore.AddSearchToHistory` | HarvardArtAPP/Persistence/SearchHistoryStore.swift:26-50 | the list becomes `AfterSearch` of the old one; a blank query saves nothing; any other query saves the list, which holds at most ten entries |
| `SearchHistoryStoreModel.SearchHistoryStore.AddClickedResultToHistory` | HarvardArtAPP/Persistence/SearchHistoryStore.swift:52-74 | the list becomes `AfterClick` of the old one and is saved, with at most ten entries |
| `SearchHistoryStoreModel.SearchHistoryStore.RemoveSearchFromHistory` | HarvardArtAPP/Persistence/SearchHistoryStore.swift:76-79 | the list becomes `AfterRemove` of the old one and is saved |
| `SearchHistoryStoreModel.SearchHistoryStore.ClearSearchHistory` | HarvardArtAPP/Persistence/SearchHistoryStore.swift:81-84 | the list is empty and the empty list is saved |
| `SearchHistoryStoreModel.SearchTwice` | HarvardArtAPP/Persistence/SearchHistoryStore.swift:26-50 | two searches for the same words (any case and spacing) in one category leave a single entry, the later one |
| `FavoritesView.FilteredFavorites` | HarvardArtAPP/Features/Favorites/FavoritesView.swift:147-155 | returns exactly `FilteredSpec`: the grouped favourites unchanged when the text trims to nothing, else the groups filtered with the lowered untrimmed text |
| `FavoritesView.FilterGroups` | HarvardArtAPP/Features/Favorites/FavoritesView.swift:156-174 | the loop over the groups, in any order, builds exactly the non-empty filtered groups, each under its own title |
| `FavoritesView.MatchedGroupsStep` | HarvardArtAPP/Features/Favorites/FavoritesView.swift:158-171 | handling one more group adds it, filtered, exactly when some favourite of it matches, and changes no other group |
| `FavoritesView.FilteredProperties` | HarvardArtAPP/Features/Favorites/FavoritesView.swift:155-172 | every output key is an input key; no output group is empty; each is its input group filtered in order; a group whose title matches is kept whole |
| `FavoritesView.FilteredMembership` | HarvardArtAPP/Features/Favorites/FavoritesView.swift:155-166 | a favourite is shown under its group exactly when the lowered, untrimmed text occurs in its lowered title, artist, description, date or group title |
| `FavoritesView.Insert` | HarvardArtAPP/Features/Favorites/FavoritesView.swift:58 | inserting a new title keeps the list strictly sorted and adds exactly that title |
| `FavoritesView.SectionOrder` | HarvardArtAPP/Features/Favorites/FavoritesView.swift:58 | the sections are listed in strictly increasing order, each title exactly once |
| `FavoritesView.DistinctSize` | HarvardArtAPP/Features/Favorites/FavoritesView.swift:58 | a strictly sorted list has no repeats |
| `FavoritesView.RowExhibition` | HarvardArtAPP/Features/Favorites/FavoritesView.swift:66-75 | the rebuilt exhibition has the row's exhibition id and title |
| `FavoritesView.RowArtwork` | HarvardArtAPP/Features/Favorites/FavoritesView.swift:76-85 | the rebuilt artwork has the row's id, title, date and image string |
| `FavoritesView.UnfavouriteFromRow` | HarvardArtAPP/Features/Favorites/FavoritesView.swift:63-86 | with unique ids, unfavouriting a shown row removes exactly one entry, and none with that id remains |
| `ArtistDetailView.DisplayName` | HarvardArtAPP/Features/ArtistDetail/ArtistDetailView.swift:259-261 | the plain name, or "Unknown Artist" when it is nil |
| `ArtistDetailView.DisplayDescription` | HarvardArtAPP/Features/ArtistDetail/ArtistDetailView.swift:263-265 | always empty |
| `ArtistDetailView.AboutNeverShown` | HarvardArtAPP/Features/ArtistDetail/ArtistDetailView.swift:21-23 | the About section is never shown, because the artist's display description is always empty |
| `ArtistDetailView.DisplayDates` | HarvardArtAPP/Features/ArtistDetail/ArtistDetailView.swift:267-276 | "b - d" for both dates, "b. b" for birth only, "d. d" for death only, and empty exactly when neither is present |
| `ArtistDetailView.DisplayBirthPlace` | HarvardArtAPP/Features/ArtistDetail/ArtistDetailView.swift:278-280 | the birthplace, or empty when it is nil |
| `ArtistDetailView.OpenArtistScreen` | HarvardArtAPP/Features/ArtistDetail/ArtistDetailView.swift:41-43 | the screen asks for page 1 of the artist's id, or of artist 0 when the person has no id |
| `ArtworkDetailView.FirstMatch` | HarvardArtAPP/Features/ArtworkDetail/ArtworkDetailView.swift:140-157 | none exactly when no keyword of the table occurs; otherwise the label of an entry whose keyword occurs (the first one, by construction) |
| `ArtworkDetailView.ExtractMediumIsFirstMatch` | HarvardArtAPP/Features/ArtworkDetail/ArtworkDetailView.swift:140-157 | the if-chain over the lowered description is the first match in the priority table oil on canvas, watercolor, bronze, marble, photograph |
| `ArtworkDetailView.FormatArtistName` | HarvardArtAPP/Features/ArtworkDetail/ArtworkDetailView.swift:175-186 | the first person's non-empty display name when there is one, otherwise the argument |
| `ArtworkDetailView.FormatArtistNameUsesFirstPerson` | HarvardArtAPP/Features/ArtworkDetail/ArtworkDetailView.swift:175-186 | on the artist row, the shown name is the first artist name |
| `ArtworkDetailView.RowVisibility` | HarvardArtAPP/Features/ArtworkDetail/ArtworkDetailView.swift:68-120 | the artist row needs some artist name; the date row shows exactly for a non-empty date other than "Date unknown"; the description row needs a non-empty description of the artwork's own |
| `ArtworkDetailView.SingleNamedArtistShown` | HarvardArtAPP/Features/ArtworkDetail/ArtworkDetailView.swift:68-76 | an artwork with a single named artist shows the artist row with that name |
| `AppearanceManagerModel.RawValue` | HarvardArtAPP/Support/AppearanceManager.swift:10-14 | every mode has a non-empty raw value |
| `AppearanceManagerModel.FromRawValue` | HarvardArtAPP/Support/AppearanceManager.swift:10-14 | a mode found from a raw value has that raw value |
| `AppearanceManagerModel.RawValueRoundTrip` | HarvardArtAPP/Support/AppearanceManager.swift:10-14 | every mode survives the trip through its raw value |
| `AppearanceManagerModel.DisplayName` | HarvardArtAPP/Support/AppearanceManager.swift:15-21 | every mode has its own display name |
| `AppearanceManagerModel.Scheme` | HarvardArtAPP/Support/AppearanceManager.swift:23-29 | only the system mode leaves the colour scheme unset |
| `AppearanceManagerModel.Next` | HarvardArtAPP/Support/AppearanceManager.swift:46-57 | a toggle always changes the mode |
| `AppearanceManagerModel.NextCycle` | HarvardArtAPP/Support/AppearanceManager.swift:46-57 | three toggles come back to the start, visiting all three modes |
| `AppearanceManagerModel.InitialMode` | HarvardArtAPP/Support/AppearanceManager.swift:41-44 | the saved raw value when it names a mode, otherwise `.system` |
| `AppearanceManagerModel.AppearanceManager.constructor` | HarvardArtAPP/Support/AppearanceManager.swift:41-44 | starts in the initial mode and writes nothing |
| `AppearanceManagerModel.AppearanceManager.SetMode` | HarvardArtAPP/Support/AppearanceManager.swift:35-39 | every assignment of the mode saves its raw value |
| `AppearanceManagerModel.AppearanceManager.ToggleMode` | HarvardArtAPP/Support/AppearanceManager.swift:46-57 | one step of the cycle, saved |
| `AppearanceManagerModel.ToggleThenRelaunch` | HarvardArtAPP/Support/AppearanceManager.swift:35-57 | what a toggle saves is the mode of the next launch |
| `AppearanceManagerModel.ToggleThrice` | HarvardArtAPP/Support/AppearanceManager.swift:35-57 | three toggles save the mode the app launched in |

## Left out

- Networking, JSON coding, user defaults and property-list reads are not modelled. What a request returns is an input. So are whether a URL builds and whether the JSON encoder fails. What the stores load is a constructor argument, and what they save is the field `saved`.
- Concurrency is not modelled: the main actor, tasks, the 300 ms debounce of `scheduleSearch`, and cancelling an earlier search. A search's cancellation is only the `cancelled` flag of its finish step. `ScheduleSearch` returns the trimmed query it would search after the delay.
- The category-aware search that the search screen calls is not modelled: `scheduleSearch(query:category:)`, `search(query:category:)` and `searchResults`. The search view model file declares none of them, so the model does not invent the fan-out "all" search. The screen methods hand back the `SearchCall` they would dispatch. The view model is modelled as written: artworks only, no category.
- `SearchResults.Number`: an artist without an id is numbered by Swift's per-process `hashValue` of its name. That value is the uninterpreted parameter `nameHash`.
- `SearchResults.Subtitle`: `Person.displayCount` is defined in no file of the app. It is the uninterpreted parameter `personCount`.
- `SearchResults.Title`: the source returns the artist's optional `effectiveName` where a `String` is required. The model reads a missing name as "", like `role ?? ""` beside it.
- `SearchHistoryStoreModel.ToSearchResult` returns a result, not an optional. The source's optional is never `nil`.
- UUIDs and timestamps are not modelled. An entry's id and date are parameters, and dates are integers.
- `timeAgo` (relative date formatting) is not modelled.
- The regular-expression dimension extraction of the artwork screen is not modelled.
- URL parsing is not modelled. An image URL exists exactly for a non-empty string.
- `lowercased()` lowers only ASCII letters in the model.
- `trimmingCharacters(in: .whitespacesAndNewlines)` trims only ASCII whitespace, NEL and NBSP in the model.
- String `<` is code-point order.
- Swift's `Int` is unbounded in the model. No page or id arithmetic in the app comes near overflow.
- Debug logging and `print` are not modelled.
- The SwiftUI layout is not modelled, nor the last-row trigger that calls load-more. `ContentView.swift`, `ThemeToggle.swift`, `BrowseView.swift` and `ExhibitionDetailView.swift` contain nothing else, so they are not part of this model.
- `APIClient.PerformRequest`: the API key is read once from a property list. Here it is a parameter.
- `GeminiService.GenerateOverview`: the Gemini key is read on every access. Here it is one parameter for the whole call.
- `APIResponse.MockSinglePage` takes only the paging envelope from the mock data. The remaining fixture records are not modelled.
- `FavoritesView.FilterGroups` walks the dictionary's keys in an order the model leaves open. Its result does not depend on that order.
- `FavoritesView.SectionOrder` states the sorted order and the set of sections. It does not model Swift's sort algorithm, only its result.
