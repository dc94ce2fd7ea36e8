/**
 * The recent-search list (HarvardArtAPP/Persistence/SearchHistoryStore.swift): at most ten
 * entries, newest first, each either a typed query or a result the user opened, saved as a
 * whole after every change.
 *
 * The user-defaults blob under "SearchHistory" is the field `saved` (`None` when nothing is
 * stored or it does not decode). The fresh UUID string and the current date each new entry
 * gets are parameters; dates are plain integers. `Person.displayCount`, which a preview of an
 * artist reads and no file of the app defines, is the parameter `personCount`.
 */
module SearchHistoryStoreModel {
  import opened Wrappers
  import opened Text
  import opened Seqs
  import opened SearchResults
  import SearchView
  import PersonModel
  import ArtworkModel
  import ExhibitionModel
  import ClassificationModel

  const MaxHistoryItems := 10

  // ---------------------------------------------------------------------------
  // Previews of search results
  // ---------------------------------------------------------------------------

  /** `SearchResultType`, the stored kind of a preview. */
  datatype SearchResultType = ArtworkType | ExhibitionType | ArtistType | MediumType

  function TypeRawValue(t: SearchResultType): (r: string)
    ensures r != []
  {
    match t
    case ArtworkType => "artwork"
    case ExhibitionType => "exhibition"
    case ArtistType => "artist"
    case MediumType => "medium"
  }

  /** `SearchResultPreview`: the texts of a result as they were shown, kept for the history list. */
  datatype SearchResultPreview = SearchResultPreview(
    title: string,
    subtitle: string,
    description: string,
    imageURL: Option<string>,
    kind: SearchResultType)

  /** The preview kind of each case of `SearchResult`. */
  function KindOf(r: SearchResult): (t: SearchResultType)
    ensures t == ArtworkType <==> r.OfArtwork?
    ensures t == ExhibitionType <==> r.OfExhibition?
    ensures t == ArtistType <==> r.OfArtist?
  {
    match r
    case OfArtwork(_) => ArtworkType
    case OfExhibition(_) => ExhibitionType
    case OfArtist(_) => ArtistType
    case OfMedium(_) => MediumType
  }

  /** `toPreview`: the result's own title, subtitle, description and image, tagged with its kind. */
  function ToPreview(r: SearchResult, personCount: PersonModel.Person -> string): (p: SearchResultPreview)
    ensures p.kind == KindOf(r) && p.title == Title(r)
    ensures p.subtitle == Subtitle(r, personCount) && p.description == Description(r)
    ensures p.imageURL == ImageURL(r)
  {
    SearchResultPreview(Title(r), Subtitle(r, personCount), Description(r), ImageURL(r), KindOf(r))
  }

  /** `description.isEmpty ? nil : description` */
  function NonEmpty(s: string): (r: Option<string>)
    ensures r.None? <==> s == ""
    ensures r.Some? ==> r.value == s
  {
    if s == "" then None else Some(s)
  }

  /**
   * `toSearchResult`: a minimal record of the preview's kind, with id 0 (none for an artist),
   * the preview title as its title and the other texts where that kind keeps them. The source
   * returns an optional but never `nil`.
   */
  function ToSearchResult(p: SearchResultPreview): (r: SearchResult)
    ensures KindOf(r) == p.kind
  {
    match p.kind
    case ArtworkType =>
      OfArtwork(ArtworkModel.Artwork(0, Some(p.title), Some(p.subtitle), NonEmpty(p.description), None,
                                     p.imageURL, None, None, None))
    case ExhibitionType =>
      OfExhibition(ExhibitionModel.Exhibition(0, Some(p.title), NonEmpty(p.description), p.imageURL, None, None))
    case ArtistType =>
      OfArtist(PersonModel.Person(None, Some(p.title), Some(p.subtitle), Some(p.title), None, None, None, None))
    case MediumType =>
      OfMedium(ClassificationModel.Classification(0, Some(p.title), None))
  }

  /**
   * Rebuilding a result from its preview and previewing it again gives back the kind and the
   * title. A non-empty description of an artwork or exhibition survives too; an artist's
   * subtitle comes back as its description (it is stored as the role).
   */
  lemma PreviewRoundTrip(p: SearchResultPreview, personCount: PersonModel.Person -> string)
    ensures var q := ToPreview(ToSearchResult(p), personCount);
            q.kind == p.kind && q.title == p.title
            && ((p.kind == ArtworkType || p.kind == ExhibitionType) && p.description != "" ==> q.description == p.description)
            && (p.kind == ArtistType ==> q.description == p.subtitle)
  {
  }

  /** Previewing a result and rebuilding it from the preview keeps its kind and its title. */
  lemma ResultRoundTrip(r: SearchResult, personCount: PersonModel.Person -> string)
    ensures var s := ToSearchResult(ToPreview(r, personCount));
            KindOf(s) == KindOf(r) && Title(s) == Title(r)
  {
  }

  // ---------------------------------------------------------------------------
  // History items
  // ---------------------------------------------------------------------------

  /** `SearchHistoryItem`. */
  datatype SearchHistoryItem = SearchHistoryItem(
    id: string,
    query: string,
    category: SearchView.SearchCategory,
    timestamp: int,
    resultPreview: Option<SearchResultPreview>,
    isClickedResult: bool)

  /** An item as it is stored, where entries written before clicked results existed lack `isClickedResult`. */
  datatype StoredItem = StoredItem(
    id: string,
    query: string,
    category: SearchView.SearchCategory,
    timestamp: int,
    resultPreview: Option<SearchResultPreview>,
    isClickedResult: Option<bool>)

  /** `init(from:)`: a stored item without `isClickedResult` is a typed query; everything else is kept. */
  function DecodeItem(s: StoredItem): (item: SearchHistoryItem)
    ensures s.isClickedResult.None? ==> !item.isClickedResult
    ensures s.isClickedResult.Some? ==> item.isClickedResult == s.isClickedResult.value
    ensures item.id == s.id && item.query == s.query && item.category == s.category
    ensures item.timestamp == s.timestamp && item.resultPreview == s.resultPreview
  {
    SearchHistoryItem(s.id, s.query, s.category, s.timestamp, s.resultPreview, s.isClickedResult.GetOr(false))
  }

  /** Encoding always writes `isClickedResult`, so decoding what was encoded gives the item back. */
  function EncodeItem(item: SearchHistoryItem): (s: StoredItem)
    ensures s.isClickedResult.Some?
  {
    StoredItem(item.id, item.query, item.category, item.timestamp, item.resultPreview, Some(item.isClickedResult))
  }

  lemma ItemRoundTrip(item: SearchHistoryItem)
    ensures DecodeItem(EncodeItem(item)) == item
  {
  }

  /** `displayTitle`: a clicked entry with a preview shows the result's title, every other entry its query. */
  function DisplayTitle(item: SearchHistoryItem): (t: string)
    ensures item.isClickedResult && item.resultPreview.Some? ==> t == item.resultPreview.value.title
    ensures !item.isClickedResult || item.resultPreview.None? ==> t == item.query
  {
    if item.isClickedResult && item.resultPreview.Some? then item.resultPreview.value.title else item.query
  }

  /** `displayCategory`: both branches give the raw value, so it is the raw value for every category. */
  function DisplayCategory(item: SearchHistoryItem): (t: string)
    ensures t == SearchView.RawValue(item.category)
  {
    if item.category == SearchView.All then "All" else SearchView.RawValue(item.category)
  }

  // ---------------------------------------------------------------------------
  // The list after each change
  // ---------------------------------------------------------------------------

  /** The duplicate test of `addSearchToHistory`: same query ignoring case, and same category. */
  function SameSearch(trimmed: string, category: SearchView.SearchCategory): SearchHistoryItem -> bool {
    (item: SearchHistoryItem) => Lowercase(item.query) == Lowercase(trimmed) && item.category == category
  }

  /** The duplicate test of `addClickedResultToHistory`: a preview whose title equals `title` ignoring case. */
  function SameResultTitle(title: string): SearchHistoryItem -> bool {
    (item: SearchHistoryItem) => item.resultPreview.Some? && Lowercase(item.resultPreview.value.title) == Lowercase(title)
  }

  function HasId(id: string): SearchHistoryItem -> bool {
    (item: SearchHistoryItem) => item.id == id
  }

  /** Insert at the front and keep the ten most recent. */
  function PushFront(list: seq<SearchHistoryItem>, item: SearchHistoryItem): (r: seq<SearchHistoryItem>)
    ensures 1 <= |r| <= MaxHistoryItems && r[0] == item
    ensures |r| == if |list| < MaxHistoryItems then |list| + 1 else MaxHistoryItems
    ensures IsPrefixOf(r[1..], list)
    ensures |list| < MaxHistoryItems ==> r == [item] + list
  {
    var r := Prefix([item] + list, MaxHistoryItems);
    assert r[1..] == Prefix(list, MaxHistoryItems - 1);
    r
  }

  /** `insert(_, at: 0)` followed by the cut to `maxHistoryItems`, as both add methods do it. */
  method InsertCapped(list: seq<SearchHistoryItem>, item: SearchHistoryItem) returns (pushed: seq<SearchHistoryItem>)
    ensures pushed == PushFront(list, item)
  {
    pushed := [item] + list;
    if |pushed| > MaxHistoryItems {
      pushed := pushed[..MaxHistoryItems];
    }
  }

  /**
   * Removing the entries `drop` selects and pushing a new one: no later entry is selected by
   * `drop`, and the later entries are old ones in their old order.
   */
  lemma PushFrontAfterRemoval(list: seq<SearchHistoryItem>, drop: SearchHistoryItem -> bool, item: SearchHistoryItem)
    ensures var r := PushFront(RemoveAll(list, drop), item);
            (forall i :: 1 <= i < |r| ==> !drop(r[i])) && IsSubsequence(r[1..], list)
  {
    var kept := RemoveAll(list, drop);
    var r := PushFront(kept, item);
    PrefixIsSubsequence(r[1..], kept);
    SubsequenceTransitive(r[1..], kept, list);
    forall i | 1 <= i < |r|
      ensures !drop(r[i])
    {
      assert r[i] == kept[i - 1];
    }
  }

  lemma {:induction false} PrefixIsSubsequence<T>(p: seq<T>, s: seq<T>)
    requires IsPrefixOf(p, s)
    ensures IsSubsequence(p, s)
    decreases |s|
  {
    if p != [] {
      PrefixIsSubsequence(p[1..], s[1..]);
    }
  }

  /** The item `addSearchToHistory` creates for a trimmed query. */
  function SearchItem(trimmed: string, category: SearchView.SearchCategory, result: Option<SearchResult>,
                      personCount: PersonModel.Person -> string, id: string, now: int): SearchHistoryItem
  {
    SearchHistoryItem(id, trimmed, category, now,
                      if result.Some? then Some(ToPreview(result.value, personCount)) else None, false)
  }

  /** The list after `addSearchToHistory(query:category:result:)`. */
  function AfterSearch(list: seq<SearchHistoryItem>, query: string, category: SearchView.SearchCategory,
                       result: Option<SearchResult>, personCount: PersonModel.Person -> string,
                       id: string, now: int): seq<SearchHistoryItem>
  {
    var trimmed := Trim(query);
    if trimmed == [] then list
    else PushFront(RemoveAll(list, SameSearch(trimmed, category)), SearchItem(trimmed, category, result, personCount, id, now))
  }

  /**
   * After a search whose query does not trim to nothing: at most ten entries; the first is an
   * unclicked entry for the trimmed query and category; no later entry repeats that search;
   * and the later entries are the first nine earlier entries that do not repeat it, in their
   * old order.
   */
  lemma AddSearchProperties(list: seq<SearchHistoryItem>, query: string, category: SearchView.SearchCategory,
                            result: Option<SearchResult>, personCount: PersonModel.Person -> string, id: string, now: int)
    requires Trim(query) != ""
    ensures var r := AfterSearch(list, query, category, result, personCount, id, now);
            1 <= |r| <= MaxHistoryItems
            && r[0].query == Trim(query) && r[0].category == category && !r[0].isClickedResult && r[0].id == id
            && (result.Some? ==> r[0].resultPreview == Some(ToPreview(result.value, personCount)))
            && (forall i :: 1 <= i < |r| ==> !(Lowercase(r[i].query) == Lowercase(Trim(query)) && r[i].category == category))
            && IsSubsequence(r[1..], list)
            && r[1..] == Prefix(RemoveAll(list, SameSearch(Trim(query), category)), MaxHistoryItems - 1)
  {
    var trimmed := Trim(query);
    var item := SearchItem(trimmed, category, result, personCount, id, now);
    var kept := RemoveAll(list, SameSearch(trimmed, category));
    var r := PushFront(kept, item);
    assert AfterSearch(list, query, category, result, personCount, id, now) == r;
    PushFrontAfterRemoval(list, SameSearch(trimmed, category), item);
    assert r[1..] == Prefix(kept, MaxHistoryItems - 1);
    forall i | 1 <= i < |r|
      ensures !(Lowercase(r[i].query) == Lowercase(trimmed) && r[i].category == category)
    {
      assert !SameSearch(trimmed, category)(r[i]);
    }
  }

  /** A search that trims to nothing leaves the list as it was. */
  lemma BlankSearchChangesNothing(list: seq<SearchHistoryItem>, query: string, category: SearchView.SearchCategory,
                                  result: Option<SearchResult>, personCount: PersonModel.Person -> string, id: string, now: int)
    requires AllWhitespace(query)
    ensures AfterSearch(list, query, category, result, personCount, id, now) == list
  {
  }

  /** The item `addClickedResultToHistory` creates. */
  function ClickedItem(result: SearchResult, personCount: PersonModel.Person -> string, originalQuery: string,
                       category: SearchView.SearchCategory, id: string, now: int): SearchHistoryItem
  {
    SearchHistoryItem(id, originalQuery, category, now, Some(ToPreview(result, personCount)), true)
  }

  /** The list after `addClickedResultToHistory(result:originalQuery:category:)`; the query is kept untrimmed. */
  function AfterClick(list: seq<SearchHistoryItem>, result: SearchResult, personCount: PersonModel.Person -> string,
                      originalQuery: string, category: SearchView.SearchCategory, id: string, now: int): seq<SearchHistoryItem>
  {
    PushFront(RemoveAll(list, SameResultTitle(Title(result))), ClickedItem(result, personCount, originalQuery, category, id, now))
  }

  /**
   * After opening a result: at most ten entries; the first is a clicked entry showing the
   * result's title; no later entry has a preview with that title (ignoring case); the later
   * entries are the first nine earlier entries without such a preview, in order; and when fewer than ten entries were there, every
   * entry without a preview is still there.
   */
  lemma AddClickProperties(list: seq<SearchHistoryItem>, result: SearchResult, personCount: PersonModel.Person -> string,
                           originalQuery: string, category: SearchView.SearchCategory, id: string, now: int)
    ensures var r := AfterClick(list, result, personCount, originalQuery, category, id, now);
            1 <= |r| <= MaxHistoryItems
            && r[0].isClickedResult && r[0].query == originalQuery && DisplayTitle(r[0]) == Title(result)
            && (forall i :: 1 <= i < |r| ==> !SameResultTitle(Title(result))(r[i]))
            && IsSubsequence(r[1..], list)
            && r[1..] == Prefix(RemoveAll(list, SameResultTitle(Title(result))), MaxHistoryItems - 1)
            && (|list| < MaxHistoryItems ==> forall item :: item in list && item.resultPreview.None? ==> item in r)
  {
    var drop := SameResultTitle(Title(result));
    var kept := RemoveAll(list, drop);
    var r := AfterClick(list, result, personCount, originalQuery, category, id, now);
    PushFrontAfterRemoval(list, drop, ClickedItem(result, personCount, originalQuery, category, id, now));
    if |list| < MaxHistoryItems {
      forall item | item in list && item.resultPreview.None?
        ensures item in r
      {
        var j :| 0 <= j < |list| && list[j] == item;
        assert item in kept;
        assert r[1..] == kept;
      }
    }
  }

  /** The list after `removeSearchFromHistory(id:)`. */
  function AfterRemove(list: seq<SearchHistoryItem>, id: string): seq<SearchHistoryItem> {
    RemoveAll(list, HasId(id))
  }

  /** Removing by id drops exactly the entries with that id and keeps the others in order. */
  lemma RemoveProperties(list: seq<SearchHistoryItem>, id: string)
    ensures var r := AfterRemove(list, id);
            (forall i :: 0 <= i < |r| ==> r[i].id != id)
            && (forall i :: 0 <= i < |list| && list[i].id != id ==> list[i] in r)
            && IsSubsequence(r, list)
  {
  }

  // ---------------------------------------------------------------------------
  // The store
  // ---------------------------------------------------------------------------

  class SearchHistoryStore {
    var recentSearches: seq<SearchHistoryItem>
    var saved: Option<seq<SearchHistoryItem>>

    /** `init` via `loadSearchHistory`: the decoded blob, or the empty list. Nothing is written. */
    constructor (stored: Option<seq<StoredItem>>)
      ensures stored.Some? ==> |recentSearches| == |stored.value|
                               && forall i :: 0 <= i < |stored.value| ==> recentSearches[i] == DecodeItem(stored.value[i])
      ensures stored.None? ==> recentSearches == []
      ensures saved == if stored.Some? then Some(recentSearches) else None
    {
      if stored.Some? {
        recentSearches := seq(|stored.value|, i requires 0 <= i < |stored.value| => DecodeItem(stored.value[i]));
        saved := Some(recentSearches);
      } else {
        recentSearches := [];
        saved := None;
      }
    }

    /** `addSearchToHistory`: a blank query changes and saves nothing; any other query is pushed as a fresh entry and the list saved. */
    method AddSearchToHistory(query: string, category: SearchView.SearchCategory, result: Option<SearchResult>,
                              personCount: PersonModel.Person -> string, id: string, now: int)
      modifies this
      ensures recentSearches == AfterSearch(old(recentSearches), query, category, result, personCount, id, now)
      ensures Trim(query) == "" ==> saved == old(saved)
      ensures Trim(query) != "" ==> saved == Some(recentSearches) && |recentSearches| <= MaxHistoryItems
    {
      var trimmed := Trim(query);
      if trimmed != "" {
        var kept := RemoveAll(recentSearches, SameSearch(trimmed, category));
        var item := SearchItem(trimmed, category, result, personCount, id, now);
        var pushed := InsertCapped(kept, item);
        assert pushed == AfterSearch(recentSearches, query, category, result, personCount, id, now);
        recentSearches := pushed;
        saved := Some(recentSearches);
      } else {
        assert AfterSearch(recentSearches, query, category, result, personCount, id, now) == recentSearches;
      }
    }

    /** `addClickedResultToHistory`: drop entries previewing a result of the same title, push a clicked entry, save. */
    method AddClickedResultToHistory(result: SearchResult, personCount: PersonModel.Person -> string, originalQuery: string,
                                     category: SearchView.SearchCategory, id: string, now: int)
      modifies this
      ensures recentSearches == AfterClick(old(recentSearches), result, personCount, originalQuery, category, id, now)
      ensures saved == Some(recentSearches) && |recentSearches| <= MaxHistoryItems
    {
      var kept := RemoveAll(recentSearches, SameResultTitle(Title(result)));
      var item := ClickedItem(result, personCount, originalQuery, category, id, now);
      var pushed := InsertCapped(kept, item);
      recentSearches := pushed;
      saved := Some(recentSearches);
    }

    /** `removeSearchFromHistory(id:)`, then save. */
    method RemoveSearchFromHistory(id: string)
      modifies this
      ensures recentSearches == AfterRemove(old(recentSearches), id)
      ensures saved == Some(recentSearches)
    {
      recentSearches := RemoveAll(recentSearches, HasId(id));
      saved := Some(recentSearches);
    }

    /** `clearSearchHistory`: empty the list and save the empty list. */
    method ClearSearchHistory()
      modifies this
      ensures recentSearches == [] && saved == Some([])
    {
      recentSearches := [];
      saved := Some([]);
    }
  }

  /**
   * Searching for the same words twice, in any case and spacing, in the same category leaves a
   * single entry: the later one.
   */
  method SearchTwice(first: string, second: string, category: SearchView.SearchCategory,
                     personCount: PersonModel.Person -> string)
    returns (saved: Option<seq<SearchHistoryItem>>)
    requires Trim(first) != "" && Lowercase(Trim(first)) == Lowercase(Trim(second))
    ensures saved == Some([SearchHistoryItem("2", Trim(second), category, 2, None, false)])
  {
    var store := new SearchHistoryStore(None);
    store.AddSearchToHistory(first, category, None, personCount, "1", 1);
    assert Trim(second) != "" by {
      assert |Lowercase(Trim(second))| == |Trim(second)|;
    }
    store.AddSearchToHistory(second, category, None, personCount, "2", 2);
    saved := store.saved;
  }
}
