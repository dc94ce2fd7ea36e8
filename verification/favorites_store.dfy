/**
 * The saved favourites (HarvardArtAPP/Persistence/FavoritesStore.swift): a list of artwork
 * snapshots kept in the order they were added, toggled by artwork id and saved as a whole
 * after every toggle.
 *
 * The user-defaults blob under "FavoriteArtworks" is the field `saved`: `None` when nothing
 * is stored or the stored data does not decode, otherwise the decoded list.
 */
module FavoritesStoreModel {
  import opened Wrappers
  import opened Seqs
  import ArtworkModel
  import ExhibitionModel

  /** `FavoriteArtwork`: what is remembered of an artwork when it is favourited. */
  datatype FavoriteArtwork = FavoriteArtwork(
    id: int,
    title: string,
    artist: string,
    dated: string,
    description: string,
    imageURL: Option<string>,
    exhibitionId: int,
    exhibitionTitle: string)

  /** `displayImageURL`: present exactly when the stored image string is present and non-empty. */
  function DisplayImageURL(f: FavoriteArtwork): (r: Option<string>)
    ensures r.Some? <==> f.imageURL.Some? && f.imageURL.value != ""
    ensures r.Some? ==> r.value == f.imageURL.value
  {
    if f.imageURL.Some? && f.imageURL.value != "" then f.imageURL else None
  }

  /** The snapshot `toggleFavorite` appends: the artwork's display texts and raw image string, and the exhibition it was seen in. */
  function Snapshot(a: ArtworkModel.Artwork, e: ExhibitionModel.Exhibition): (f: FavoriteArtwork)
    ensures f.id == a.id && f.exhibitionId == e.id
    ensures f.title == ArtworkModel.DisplayTitle(a) && f.artist == ArtworkModel.DisplayArtist(a)
    ensures f.dated == ArtworkModel.DisplayDate(a) && f.description == ArtworkModel.DisplayDescription(a)
    ensures f.imageURL == a.primaryimageurl && f.exhibitionTitle == ExhibitionModel.DisplayTitle(e)
  {
    FavoriteArtwork(a.id, ArtworkModel.DisplayTitle(a), ArtworkModel.DisplayArtist(a), ArtworkModel.DisplayDate(a),
                    ArtworkModel.DisplayDescription(a), a.primaryimageurl, e.id, ExhibitionModel.DisplayTitle(e))
  }

  /** `contains { $0.id == id }`, walking the list from the front. */
  function ContainsId(favs: seq<FavoriteArtwork>, id: int): (r: bool)
    ensures r <==> exists i :: 0 <= i < |favs| && favs[i].id == id
  {
    if favs == [] then false
    else if favs[0].id == id then true
    else
      var r := ContainsId(favs[1..], id);
      assert r ==> exists i :: 0 <= i < |favs[1..]| && favs[1..][i].id == id;
      assert favs == [favs[0]] + favs[1..];
      r
  }

  /** `firstIndex(where: { $0.id == id })`. */
  function FirstIndex(favs: seq<FavoriteArtwork>, id: int): (r: Option<nat>)
    ensures r.None? <==> !ContainsId(favs, id)
    ensures r.Some? ==> r.value < |favs| && favs[r.value].id == id
                        && forall j :: 0 <= j < r.value ==> favs[j].id != id
  {
    if favs == [] then None
    else if favs[0].id == id then Some(0)
    else
      match FirstIndex(favs[1..], id)
      case None => None
      case Some(i) =>
        assert forall j :: 1 <= j < i + 1 ==> favs[j] == favs[1..][j - 1];
        Some(i + 1)
  }

  /** No two favourites share an id. */
  predicate UniqueIds(favs: seq<FavoriteArtwork>) {
    forall i, j :: 0 <= i < j < |favs| ==> favs[i].id != favs[j].id
  }

  /** The list after `toggleFavorite(artwork, fromExhibition: exhibition)`. */
  function Toggled(favs: seq<FavoriteArtwork>, a: ArtworkModel.Artwork, e: ExhibitionModel.Exhibition): (r: seq<FavoriteArtwork>)
    ensures ContainsId(favs, a.id) ==> |r| == |favs| - 1
    ensures !ContainsId(favs, a.id) ==> r == favs + [Snapshot(a, e)]
  {
    match FirstIndex(favs, a.id)
    case Some(i) => favs[..i] + favs[i + 1..]
    case None => favs + [Snapshot(a, e)]
  }

  /** Toggling a present id removes its first entry and keeps every other entry, in order. */
  lemma ToggleRemovesFirst(favs: seq<FavoriteArtwork>, a: ArtworkModel.Artwork, e: ExhibitionModel.Exhibition)
    requires ContainsId(favs, a.id)
    ensures var i := FirstIndex(favs, a.id).value;
            Toggled(favs, a, e) == favs[..i] + favs[i + 1..] && IsSubsequence(Toggled(favs, a, e), favs)
  {
    var i := FirstIndex(favs, a.id).value;
    DropOneIsSubsequence(favs, i);
  }

  /** Removing one element leaves a subsequence. */
  lemma {:induction false} DropOneIsSubsequence<T>(s: seq<T>, i: nat)
    requires i < |s|
    ensures IsSubsequence(s[..i] + s[i + 1..], s)
    decreases i
  {
    if i == 0 {
      assert s[..0] + s[1..] == s[1..];
      SubsequenceReflexive(s[1..]);
      SubsequenceOfTail(s[1..], s);
    } else {
      DropOneIsSubsequence(s[1..], i - 1);
      assert (s[..i] + s[i + 1..])[1..] == s[1..][..i - 1] + s[1..][i..];
    }
  }

  lemma {:induction false} SubsequenceReflexive<T>(s: seq<T>)
    ensures IsSubsequence(s, s)
    decreases |s|
  {
    if s != [] {
      SubsequenceReflexive(s[1..]);
    }
  }

  /** With unique ids, a toggle flips the membership of the toggled id and of no other id. */
  lemma ToggleFlipsMembership(favs: seq<FavoriteArtwork>, a: ArtworkModel.Artwork, e: ExhibitionModel.Exhibition, id: int)
    requires UniqueIds(favs)
    ensures ContainsId(Toggled(favs, a, e), id) <==> (if id == a.id then !ContainsId(favs, id) else ContainsId(favs, id))
  {
    if id != a.id {
      ToggleKeepsOtherIds(favs, a, e, id);
    } else if ContainsId(favs, id) {
      ToggleRemovesId(favs, a, e);
    } else {
      assert Toggled(favs, a, e)[|favs|].id == id;
    }
  }

  /** With unique ids, toggling a present id leaves no entry with that id. */
  lemma ToggleRemovesId(favs: seq<FavoriteArtwork>, a: ArtworkModel.Artwork, e: ExhibitionModel.Exhibition)
    requires UniqueIds(favs) && ContainsId(favs, a.id)
    ensures !ContainsId(Toggled(favs, a, e), a.id)
  {
    var r := Toggled(favs, a, e);
    var i := FirstIndex(favs, a.id).value;
    DropOneAt(favs, i);
    forall k | 0 <= k < |r|
      ensures r[k].id != a.id
    {
      if k >= i {
        assert r[k] == favs[k + 1];
      }
    }
  }

  /** A toggle keeps the membership of every other id. */
  lemma ToggleKeepsOtherIds(favs: seq<FavoriteArtwork>, a: ArtworkModel.Artwork, e: ExhibitionModel.Exhibition, id: int)
    requires id != a.id
    ensures ContainsId(Toggled(favs, a, e), id) <==> ContainsId(favs, id)
  {
    match FirstIndex(favs, a.id)
    case Some(i) =>
      DropOneKeepsOtherIds(favs, i, id);
    case None =>
      AppendKeepsOtherIds(favs, Snapshot(a, e), id);
  }

  /** Dropping an entry with another id keeps the membership of `id`. */
  lemma DropOneKeepsOtherIds(favs: seq<FavoriteArtwork>, i: nat, id: int)
    requires i < |favs| && favs[i].id != id
    ensures ContainsId(favs[..i] + favs[i + 1..], id) <==> ContainsId(favs, id)
  {
    var r := favs[..i] + favs[i + 1..];
    DropOneAt(favs, i);
    if ContainsId(favs, id) {
      var j :| 0 <= j < |favs| && favs[j].id == id;
      assert r[if j < i then j else j - 1].id == id;
    }
    if ContainsId(r, id) {
      var k :| 0 <= k < |r| && r[k].id == id;
      assert favs[if k < i then k else k + 1].id == id;
    }
  }

  /** Appending an entry with another id keeps the membership of `id`. */
  lemma AppendKeepsOtherIds(favs: seq<FavoriteArtwork>, f: FavoriteArtwork, id: int)
    requires f.id != id
    ensures ContainsId(favs + [f], id) <==> ContainsId(favs, id)
  {
    var r := favs + [f];
    if ContainsId(favs, id) {
      var j :| 0 <= j < |favs| && favs[j].id == id;
      assert r[j].id == id;
    }
    if ContainsId(r, id) {
      var k :| 0 <= k < |r| && r[k].id == id;
      assert favs[k].id == id;
    }
  }

  /** The elements of a sequence with the one at `i` dropped: those before `i`, then those after it. */
  lemma DropOneAt<T>(s: seq<T>, i: nat)
    requires i < |s|
    ensures |s[..i] + s[i + 1..]| == |s| - 1
    ensures forall k :: 0 <= k < |s| - 1 ==> (s[..i] + s[i + 1..])[k] == if k < i then s[k] else s[k + 1]
  {
  }

  /** Toggling keeps ids unique, since a snapshot is appended only when its id is absent. */
  lemma ToggleKeepsIdsUnique(favs: seq<FavoriteArtwork>, a: ArtworkModel.Artwork, e: ExhibitionModel.Exhibition)
    requires UniqueIds(favs)
    ensures UniqueIds(Toggled(favs, a, e))
  {
    var r := Toggled(favs, a, e);
    match FirstIndex(favs, a.id)
    case Some(i) =>
      DropOneAt(favs, i);
    case None =>
      assert forall k :: 0 <= k < |favs| ==> r[k] == favs[k];
  }

  /** Toggling an artwork that is not a favourite twice restores the list, whatever exhibitions it was toggled from. */
  lemma ToggleTwiceRestores(favs: seq<FavoriteArtwork>, a: ArtworkModel.Artwork, e: ExhibitionModel.Exhibition, e2: ExhibitionModel.Exhibition)
    requires !ContainsId(favs, a.id)
    ensures Toggled(Toggled(favs, a, e), a, e2) == favs
  {
    var once := favs + [Snapshot(a, e)];
    assert once[|favs|].id == a.id;
    var i := FirstIndex(once, a.id).value;
    assert forall j :: 0 <= j < |favs| ==> once[j] == favs[j];
    assert i == |favs|;
    assert once[..i] == favs;
  }

  /** The distinct exhibition titles of a list of favourites. */
  function Titles(favs: seq<FavoriteArtwork>): set<string> {
    set f | f in favs :: f.exhibitionTitle
  }

  /** The grouping key test: the favourite was saved from an exhibition titled `k`. */
  function TitleIs(k: string): FavoriteArtwork -> bool {
    (f: FavoriteArtwork) => f.exhibitionTitle == k
  }

  /**
   * `Dictionary(grouping:by: exhibitionTitle)`: one group per distinct exhibition title,
   * holding the favourites with that title in list order.
   */
  function Grouped(favs: seq<FavoriteArtwork>): (g: map<string, seq<FavoriteArtwork>>)
    ensures g.Keys == Titles(favs)
    ensures forall k :: k in g ==> g[k] != [] && IsSubsequence(g[k], favs)
    ensures forall k, f :: k in g && f in g[k] ==> f.exhibitionTitle == k
  {
    var g := map k | k in Titles(favs) :: Filter(favs, TitleIs(k));
    assert forall k :: k in g ==> g[k] != [] by {
      forall k | k in g ensures g[k] != [] {
        var f :| f in favs && f.exhibitionTitle == k;
        var i :| 0 <= i < |favs| && favs[i] == f;
      }
    }
    assert forall k :: k in g ==> IsSubsequence(g[k], favs) by {
      forall k | k in g ensures IsSubsequence(g[k], favs) {
        FilterIsSubsequence(favs, TitleIs(k));
      }
    }
    g
  }

  /** Every favourite lies in exactly one group, the one of its exhibition title, as often as in the list. */
  lemma GroupsPartition(favs: seq<FavoriteArtwork>, f: FavoriteArtwork, k: string)
    requires k in Grouped(favs)
    ensures multiset(Grouped(favs)[k])[f] == if f.exhibitionTitle == k then multiset(favs)[f] else 0
  {
    FilterCount(favs, TitleIs(k), f);
  }

  class FavoritesStore {
    var favoriteArtworks: seq<FavoriteArtwork>
    var saved: Option<seq<FavoriteArtwork>>

    /** `init` via `loadFavorites`: the decoded blob, or the empty list when there is none. Nothing is written. */
    constructor (stored: Option<seq<FavoriteArtwork>>)
      ensures stored.Some? ==> favoriteArtworks == stored.value
      ensures stored.None? ==> favoriteArtworks == []
      ensures saved == stored
    {
      favoriteArtworks := if stored.Some? then stored.value else [];
      saved := stored;
    }

    /** `isFavorite(artworkId:)`. */
    function IsFavorite(artworkId: int): (r: bool)
      reads this
      ensures r <==> exists f :: f in favoriteArtworks && f.id == artworkId
    {
      ContainsId(favoriteArtworks, artworkId)
    }

    /** `toggleFavorite`: remove the first entry with the artwork's id, or append its snapshot; then save the whole list. */
    method ToggleFavorite(artwork: ArtworkModel.Artwork, exhibition: ExhibitionModel.Exhibition)
      modifies this
      ensures favoriteArtworks == Toggled(old(favoriteArtworks), artwork, exhibition)
      ensures saved == Some(favoriteArtworks)
      ensures UniqueIds(old(favoriteArtworks)) ==> UniqueIds(favoriteArtworks)
                                                   && (IsFavorite(artwork.id) <==> !old(IsFavorite(artwork.id)))
    {
      var index := FirstIndex(favoriteArtworks, artwork.id);
      if index.Some? {
        favoriteArtworks := favoriteArtworks[..index.value] + favoriteArtworks[index.value + 1..];
      } else {
        favoriteArtworks := favoriteArtworks + [Snapshot(artwork, exhibition)];
      }
      saved := Some(favoriteArtworks);
      if UniqueIds(old(favoriteArtworks)) {
        ToggleKeepsIdsUnique(old(favoriteArtworks), artwork, exhibition);
        ToggleFlipsMembership(old(favoriteArtworks), artwork, exhibition, artwork.id);
      }
    }

    /** `groupedFavorites()`. */
    function GroupedFavorites(): (g: map<string, seq<FavoriteArtwork>>)
      reads this
      ensures g.Keys == Titles(favoriteArtworks)
      ensures forall k :: k in g ==> g[k] != [] && IsSubsequence(g[k], favoriteArtworks)
    {
      Grouped(favoriteArtworks)
    }
  }

  /** Favouriting an artwork that was not saved and unfavouriting it again leaves the saved list as it was loaded. */
  method FavouriteAndUndo(stored: seq<FavoriteArtwork>, a: ArtworkModel.Artwork, e: ExhibitionModel.Exhibition)
    returns (middle: Option<seq<FavoriteArtwork>>, final: Option<seq<FavoriteArtwork>>)
    requires !ContainsId(stored, a.id)
    ensures middle == Some(stored + [Snapshot(a, e)])
    ensures final == Some(stored)
  {
    var store := new FavoritesStore(Some(stored));
    store.ToggleFavorite(a, e);
    middle := store.saved;
    store.ToggleFavorite(a, e);
    ToggleTwiceRestores(stored, a, e, e);
    final := store.saved;
  }
}
