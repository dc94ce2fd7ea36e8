/**
 * The logic of the search screen (HarvardArtAPP/Features/Search/SearchView.swift): the search
 * categories, the placeholder text, the filter chips and the calls the screen hands to the
 * search view model. Layout, navigation and the result lists are not modelled.
 */
module SearchView {
  import opened Wrappers
  import opened Text
  import Seqs
  import SearchViewModel

  /** `SearchCategory`, a `String`-backed enum listed in declaration order by `allCases`. */
  datatype SearchCategory = Exhibitions | Artwork | Artists | Mediums | All

  function RawValue(c: SearchCategory): (r: string)
    ensures r != []
  {
    match c
    case Exhibitions => "Exhibitions"
    case Artwork => "Artwork"
    case Artists => "Artists"
    case Mediums => "Mediums"
    case All => "All"
  }

  /** `SearchCategory(rawValue:)`: the case with that raw value, if any. */
  function FromRawValue(raw: string): (r: Option<SearchCategory>)
    ensures r.Some? ==> RawValue(r.value) == raw
  {
    if raw == "Exhibitions" then Some(Exhibitions)
    else if raw == "Artwork" then Some(Artwork)
    else if raw == "Artists" then Some(Artists)
    else if raw == "Mediums" then Some(Mediums)
    else if raw == "All" then Some(All)
    else None
  }

  /** Every category survives the trip through its raw value, so the raw values are distinct. */
  lemma RawValueRoundTrip(c: SearchCategory)
    ensures FromRawValue(RawValue(c)) == Some(c)
  {
  }

  /** `SearchCategory.allCases`. */
  const AllCases: seq<SearchCategory> := [Exhibitions, Artwork, Artists, Mediums, All]

  /** Every category is listed exactly once. */
  lemma AllCasesComplete(c: SearchCategory)
    ensures multiset(AllCases)[c] == 1
  {
  }

  /** The categories offered as filter chips: `allCases` without `.all`, in order. */
  function ChipCategories(): (r: seq<SearchCategory>)
    ensures forall c :: c in r <==> c != All
    ensures Seqs.IsSubsequence(r, AllCases)
  {
    Seqs.FilterIsSubsequence(AllCases, c => c != All);
    Seqs.Filter(AllCases, c => c != All)
  }

  /** The category a search runs in: the selected one, or `.all` when none is selected. */
  function EffectiveCategory(selected: Option<SearchCategory>): (r: SearchCategory)
    ensures r == All <==> selected.None? || selected == Some(All)
  {
    selected.GetOr(All)
  }

  /** `placeholderText` for the selected category. */
  function PlaceholderText(selected: Option<SearchCategory>): (r: string)
    ensures r == "Search everything" <==> EffectiveCategory(selected) == All
  {
    match EffectiveCategory(selected)
    case Artwork => "Search for an artwork"
    case Exhibitions => "Search for exhibitions"
    case Artists => "Search for artists"
    case Mediums => "Search for mediums"
    case All => "Search everything"
  }

  /** Each category has its own placeholder, and "no category" reads like `.all`. */
  lemma PlaceholderDistinguishes(a: Option<SearchCategory>, b: Option<SearchCategory>)
    requires PlaceholderText(a) == PlaceholderText(b)
    ensures EffectiveCategory(a) == EffectiveCategory(b)
  {
  }

  /** A call the screen hands to the view model: the query text and the category to search. */
  datatype SearchCall = SearchCall(query: string, category: SearchCategory)

  class SearchScreen {
    var searchText: string
    var selectedCategory: Option<SearchCategory>

    constructor ()
      ensures searchText == "" && selectedCategory.None?
    {
      searchText := "";
      selectedCategory := None;
    }

    /** The text field's `onChange`: the new text is scheduled, untrimmed, in the effective category. */
    method EditText(newValue: string) returns (scheduled: SearchCall)
      modifies this`searchText
      ensures searchText == newValue
      ensures scheduled == SearchCall(newValue, EffectiveCategory(selectedCategory))
    {
      searchText := newValue;
      scheduled := SearchCall(newValue, EffectiveCategory(selectedCategory));
    }

    /**
     * A chip's action: tapping the selected chip deselects it, tapping any other selects it.
     * A search then runs, in the new effective category, whenever the text is non-empty —
     * untrimmed, so whitespace-only text also triggers one.
     */
    method TapChip(category: SearchCategory) returns (search: Option<SearchCall>)
      modifies this`selectedCategory
      ensures old(selectedCategory) == Some(category) ==> selectedCategory.None?
      ensures old(selectedCategory) != Some(category) ==> selectedCategory == Some(category)
      ensures search.Some? <==> searchText != ""
      ensures search.Some? ==> search.value == SearchCall(searchText, EffectiveCategory(selectedCategory))
    {
      if selectedCategory == Some(category) {
        selectedCategory := None;
      } else {
        selectedCategory := Some(category);
      }
      if searchText != "" {
        search := Some(SearchCall(searchText, EffectiveCategory(selectedCategory)));
      } else {
        search := None;
      }
    }

    /** `performSearch` (on submit): nothing for text that trims to nothing. */
    method PerformSearch() returns (search: Option<SearchCall>)
      ensures search.Some? <==> !AllWhitespace(searchText)
      ensures search.Some? ==> search.value == SearchCall(searchText, EffectiveCategory(selectedCategory))
    {
      if Trim(searchText) == "" {
        search := None;
      } else {
        search := Some(SearchCall(searchText, EffectiveCategory(selectedCategory)));
      }
    }

    /**
     * The clear button: empties the text field, then has the screen's view model clear its
     * results, query, cursor and error; the selected chip and the view model's loading flags
     * are left alone.
     */
    method ClearText(viewModel: SearchViewModel.SearchState)
      modifies this`searchText
      modifies viewModel`artworks, viewModel`currentQuery, viewModel`currentPage, viewModel`hasMorePages, viewModel`errorMessage
      ensures searchText == "" && selectedCategory == old(selectedCategory)
      ensures viewModel.artworks == [] && viewModel.currentQuery == "" && viewModel.currentPage == 1
      ensures viewModel.hasMorePages && viewModel.errorMessage.None?
      ensures viewModel.isLoading == old(viewModel.isLoading) && viewModel.isLoadingMore == old(viewModel.isLoadingMore)
    {
      searchText := "";
      viewModel.ClearResults();
    }
  }

  /**
   * Tapping the same chip twice restores the selection when nothing or that chip was
   * selected; when another chip was selected, the first tap moves to this chip and the
   * second deselects it.
   */
  method TapTwice(initial: Option<SearchCategory>, category: SearchCategory) returns (selected: Option<SearchCategory>)
    ensures initial.None? || initial == Some(category) ==> selected == initial
    ensures initial.Some? && initial != Some(category) ==> selected.None?
  {
    var screen := new SearchScreen();
    screen.selectedCategory := initial;
    var first := screen.TapChip(category);
    var second := screen.TapChip(category);
    selected := screen.selectedCategory;
  }

  /**
   * Tapping a chip while the field holds only spaces hands a search to the view model, while
   * submitting the same text does not; the view model then drops that query itself.
   */
  method ChipSearchWithBlankText(category: SearchCategory) returns (fromChip: Option<SearchCall>, fromSubmit: Option<SearchCall>)
    ensures fromChip.Some? && fromSubmit.None?
  {
    var screen := new SearchScreen();
    var scheduled := screen.EditText(" ");
    var blank: string := " ";
    assert AllWhitespace(blank);
    fromChip := screen.TapChip(category);
    fromSubmit := screen.PerformSearch();
  }
}
