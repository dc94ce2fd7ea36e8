/**
 * The logic of the favourites screen (HarvardArtAPP/Features/Favorites/FavoritesView.swift):
 * filtering the grouped favourites by the search text, listing the groups in sorted order,
 * and unfavouriting from a row.
 */
module FavoritesView {
  import opened Wrappers
  import opened Text
  import opened Seqs
  import opened FavoritesStoreModel
  import ArtworkModel
  import ExhibitionModel

  type Groups = map<string, seq<FavoriteArtwork>>

  /**
   * The filter closure for the group titled `groupTitle`: the lowered query occurs in the
   * lowered title, artist, description or date of the favourite, or in the lowered group title.
   */
  function Matches(query: string, groupTitle: string): FavoriteArtwork -> bool {
    (f: FavoriteArtwork) =>
      Contains(Lowercase(f.title), query) || Contains(Lowercase(f.artist), query)
      || Contains(Lowercase(f.description), query) || Contains(Lowercase(f.dated), query)
      || Contains(Lowercase(groupTitle), query)
  }

  /** The favourites of group `k` that match the lowered query, in order. */
  function GroupMatches(groups: Groups, query: string, k: string): seq<FavoriteArtwork>
    requires k in groups
  {
    Filter(groups[k], Matches(query, k))
  }

  /** What `filteredFavorites` returns: the groups unchanged for blank text, else each group filtered, empty groups dropped. */
  function FilteredSpec(groups: Groups, searchText: string): Groups {
    if Trim(searchText) == [] then groups
    else MatchedGroups(groups, Lowercase(searchText), groups.Keys)
  }

  /** The non-empty filtered groups among the titles in `done`. */
  function MatchedGroups(groups: Groups, query: string, done: set<string>): Groups
    requires done <= groups.Keys
  {
    map k | k in done && GroupMatches(groups, query, k) != [] :: GroupMatches(groups, query, k)
  }

  /** One more title handled: its group is added exactly when it is non-empty after filtering. */
  lemma MatchedGroupsStep(groups: Groups, query: string, done: set<string>, title: string)
    requires done <= groups.Keys && title in groups && title !in done
    ensures var kept := GroupMatches(groups, query, title);
            MatchedGroups(groups, query, done + {title})
            == if kept != [] then MatchedGroups(groups, query, done)[title := kept] else MatchedGroups(groups, query, done)
  {
  }

  /**
   * `filteredFavorites`: the groups unchanged for blank text, else the groups filtered with
   * the lowered but untrimmed text.
   */
  method FilteredFavorites(groups: Groups, searchText: string) returns (filtered: Groups)
    ensures filtered == FilteredSpec(groups, searchText)
  {
    if Trim(searchText) == "" {
      filtered := groups;
      assert FilteredSpec(groups, searchText) == groups;
    } else {
      filtered := FilterGroups(groups, Lowercase(searchText));
      assert FilteredSpec(groups, searchText) == MatchedGroups(groups, Lowercase(searchText), groups.Keys);
    }
  }

  /** The loop of `filteredFavorites`: walks the groups one at a time and keeps each non-empty filtered group. */
  method FilterGroups(groups: Groups, query: string) returns (filtered: Groups)
    ensures filtered == MatchedGroups(groups, query, groups.Keys)
  {
    filtered := map[];
    var remaining := groups.Keys;
    while remaining != {}
      invariant remaining <= groups.Keys
      invariant filtered == MatchedGroups(groups, query, groups.Keys - remaining)
      decreases remaining
    {
      var title :| title in remaining;
      var artworks := GroupMatches(groups, query, title);
      MatchedGroupsStep(groups, query, groups.Keys - remaining, title);
      assert groups.Keys - (remaining - {title}) == (groups.Keys - remaining) + {title};
      if artworks != [] {
        filtered := filtered[title := artworks];
      }
      remaining := remaining - {title};
    }
    assert groups.Keys - remaining == groups.Keys;
  }

  /**
   * The filtered groups are input groups, none is empty, each is its input group filtered in
   * order, and a group whose title matches the text is kept whole.
   */
  lemma FilteredProperties(groups: Groups, searchText: string)
    requires Trim(searchText) != ""
    ensures var r := FilteredSpec(groups, searchText);
            r.Keys <= groups.Keys
            && (forall k :: k in r ==> r[k] != [] && IsSubsequence(r[k], groups[k]))
            && (forall k :: k in groups && groups[k] != [] && Contains(Lowercase(k), Lowercase(searchText)) ==> k in r && r[k] == groups[k])
  {
    var r := FilteredSpec(groups, searchText);
    var query := Lowercase(searchText);
    forall k | k in r
      ensures IsSubsequence(r[k], groups[k])
    {
      FilterIsSubsequence(groups[k], Matches(query, k));
    }
    forall k | k in groups && groups[k] != [] && Contains(Lowercase(k), query)
      ensures k in r && r[k] == groups[k]
    {
      FilterAll(groups[k], Matches(query, k));
    }
  }

  /** An item is shown under a kept group exactly when it matches the text in that group. */
  lemma FilteredMembership(groups: Groups, searchText: string, k: string, f: FavoriteArtwork)
    requires Trim(searchText) != "" && k in groups && f in groups[k]
    ensures (k in FilteredSpec(groups, searchText) && f in FilteredSpec(groups, searchText)[k])
            <==> Matches(Lowercase(searchText), k)(f)
  {
    var query := Lowercase(searchText);
    var kept := Filter(groups[k], Matches(query, k));
    if Matches(query, k)(f) {
      var i :| 0 <= i < |groups[k]| && groups[k][i] == f;
      assert f in kept;
    }
  }

  // ---------------------------------------------------------------------------
  // Section order
  // ---------------------------------------------------------------------------

  predicate StrictlySorted(s: seq<string>) {
    forall i, j :: 0 <= i < j < |s| ==> LexLess(s[i], s[j])
  }

  /** `k` put into its place in a strictly sorted list that lacks it. */
  function Insert(s: seq<string>, k: string): (r: seq<string>)
    requires StrictlySorted(s) && k !in s
    ensures StrictlySorted(r) && multiset(r) == multiset(s) + multiset{k}
    decreases |s|
  {
    if s == [] then [k]
    else if LexLess(k, s[0]) then
      BelowHead(s, k);
      [k] + s
    else
      LexLessTotal(k, s[0]);
      var rest := Insert(s[1..], k);
      assert s == [s[0]] + s[1..];
      AboveHead(s, k, rest);
      [s[0]] + rest
  }

  /** A title below the head of a strictly sorted list is below all of it. */
  lemma BelowHead(s: seq<string>, k: string)
    requires StrictlySorted(s) && s != [] && LexLess(k, s[0])
    ensures StrictlySorted([k] + s)
  {
    forall j | 0 <= j < |s|
      ensures LexLess(k, s[j])
    {
      if j > 0 {
        LexLessTransitive(k, s[0], s[j]);
      }
    }
  }

  /** The head of a strictly sorted list, put before the sorted rest with a larger title added, keeps the order. */
  lemma AboveHead(s: seq<string>, k: string, rest: seq<string>)
    requires StrictlySorted(s) && s != [] && LexLess(s[0], k)
    requires StrictlySorted(rest) && multiset(rest) == multiset(s[1..]) + multiset{k}
    ensures StrictlySorted([s[0]] + rest)
  {
    forall x | x in rest
      ensures LexLess(s[0], x)
    {
      assert x in multiset(rest);
      if x != k {
        assert x in s[1..];
        var j :| 0 <= j < |s[1..]| && s[1..][j] == x;
        assert s[j + 1] == x;
      }
    }
    var r := [s[0]] + rest;
    forall i, j | 0 <= i < j < |r|
      ensures LexLess(r[i], r[j])
    {
      if i == 0 {
        assert r[j] == rest[j - 1] && r[j] in rest;
      } else {
        assert r[i] == rest[i - 1] && r[j] == rest[j - 1];
      }
    }
  }

  /** The section titles in sorted order (`keys.sorted()`), each once. */
  method SectionOrder(groups: Groups) returns (order: seq<string>)
    ensures StrictlySorted(order)
    ensures forall k :: k in order <==> k in groups
    ensures |order| == |groups.Keys|
  {
    order := [];
    var remaining := groups.Keys;
    while remaining != {}
      invariant remaining <= groups.Keys
      invariant StrictlySorted(order)
      invariant forall k :: k in order <==> k in groups && k !in remaining
      invariant |order| + |remaining| == |groups.Keys|
      decreases remaining
    {
      var title :| title in remaining;
      DistinctSize(order);
      order := Insert(order, title);
      assert forall k :: k in order <==> k in multiset(order);
      remaining := remaining - {title};
    }
  }

  /** A strictly sorted list has no repeats. */
  lemma DistinctSize(s: seq<string>)
    requires StrictlySorted(s)
    ensures forall i, j :: 0 <= i < j < |s| ==> s[i] != s[j]
  {
    forall i, j | 0 <= i < j < |s|
      ensures s[i] != s[j]
    {
      LexLessIrreflexive(s[i]);
    }
  }

  // ---------------------------------------------------------------------------
  // Unfavouriting from a row
  // ---------------------------------------------------------------------------

  /** The exhibition a row rebuilds for unfavouriting: the favourite's exhibition id and title. */
  function RowExhibition(f: FavoriteArtwork): (e: ExhibitionModel.Exhibition)
    ensures e.id == f.exhibitionId && ExhibitionModel.DisplayTitle(e) == f.exhibitionTitle
  {
    ExhibitionModel.Exhibition(f.exhibitionId, Some(f.exhibitionTitle), None, None, None, None)
  }

  /** The artwork a row rebuilds for unfavouriting: the favourite's id, texts and image string, no people. */
  function RowArtwork(f: FavoriteArtwork): (a: ArtworkModel.Artwork)
    ensures a.id == f.id && ArtworkModel.DisplayTitle(a) == f.title && ArtworkModel.DisplayDate(a) == f.dated
    ensures a.primaryimageurl == f.imageURL
  {
    ArtworkModel.Artwork(f.id, Some(f.title), Some(f.dated), Some(f.description), None, f.imageURL, None, None, None)
  }

  /**
   * Unfavouriting a shown row removes that favourite: with unique ids, the toggle with the
   * rebuilt artwork leaves one entry fewer and none with the row's id.
   */
  lemma UnfavouriteFromRow(favs: seq<FavoriteArtwork>, f: FavoriteArtwork)
    requires UniqueIds(favs) && f in favs
    ensures var r := Toggled(favs, RowArtwork(f), RowExhibition(f));
            |r| == |favs| - 1 && !ContainsId(r, f.id)
  {
    var i :| 0 <= i < |favs| && favs[i] == f;
    assert ContainsId(favs, f.id);
    ToggleFlipsMembership(favs, RowArtwork(f), RowExhibition(f), f.id);
  }
}
