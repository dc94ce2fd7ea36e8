/**
 * `SearchResult`, the sum of the four kinds of catalogue record a search can return
 * (HarvardArtAPP/Models/SearchResult.swift).
 *
 * Two values the app gets from elsewhere are parameters here: `nameHash` stands for Swift's
 * per-process `hashValue` of an optional name, and `personCount` for `Person.displayCount`,
 * which no file of the app defines.
 */
module SearchResults {
  import opened Wrappers
  import opened Text
  import PersonModel
  import ArtworkModel
  import ExhibitionModel
  import ClassificationModel

  datatype SearchResult =
    | OfArtwork(artwork: ArtworkModel.Artwork)
    | OfExhibition(exhibition: ExhibitionModel.Exhibition)
    | OfArtist(person: PersonModel.Person)
    | OfMedium(classification: ClassificationModel.Classification)

  /** The kind tag each identifier starts with. */
  function Tag(r: SearchResult): string {
    match r
    case OfArtwork(_) => "artwork_"
    case OfExhibition(_) => "exhibition_"
    case OfArtist(_) => "artist_"
    case OfMedium(_) => "medium_"
  }

  /** The number each identifier ends with: the record's id, or for an artist without one the hash of its name. */
  function Number(r: SearchResult, nameHash: Option<string> -> int): int {
    match r
    case OfArtwork(a) => a.id
    case OfExhibition(e) => e.id
    case OfArtist(p) => if p.id.Some? then p.id.value else nameHash(PersonModel.EffectiveName(p))
    case OfMedium(c) => c.id
  }

  /** `id`: the kind tag followed by the decimal number. */
  function Id(r: SearchResult, nameHash: Option<string> -> int): (id: string)
    ensures |id| > |Tag(r)| && id[..|Tag(r)|] == Tag(r)
  {
    Tag(r) + IntToDecimal(Number(r, nameHash))
  }

  predicate SameKind(r: SearchResult, s: SearchResult) {
    (r.OfArtwork? && s.OfArtwork?) || (r.OfExhibition? && s.OfExhibition?)
    || (r.OfArtist? && s.OfArtist?) || (r.OfMedium? && s.OfMedium?)
  }

  /**
   * Identifiers are collision-free up to the number: equal identifiers mean the same kind and
   * the same number (so two artworks, exhibitions or mediums with equal ids, or two artists
   * with equal ids or equal name hashes).
   */
  lemma IdInjective(r: SearchResult, s: SearchResult, nameHash: Option<string> -> int)
    requires Id(r, nameHash) == Id(s, nameHash)
    ensures SameKind(r, s)
    ensures Number(r, nameHash) == Number(s, nameHash)
  {
    var x, y := Id(r, nameHash), Id(s, nameHash);
    assert x[..4] == Tag(r)[..4] && y[..4] == Tag(s)[..4];
    assert SameKind(r, s);
    assert Tag(r) == Tag(s);
    var n := |Tag(r)|;
    assert IntToDecimal(Number(r, nameHash)) == x[n..];
    assert IntToDecimal(Number(s, nameHash)) == y[n..];
    IntToDecimalInjective(Number(r, nameHash), Number(s, nameHash));
  }

  /**
   * `title`. The source returns the artist's optional `effectiveName` where a `String` is
   * expected; the model reads a missing name as "", like `role ?? ""` in `description`.
   * A title is empty only when the record's own name is the empty string (or an artist has no name).
   */
  function Title(r: SearchResult): (t: string)
    ensures t == "" ==> match r
      case OfArtwork(a) => a.title == Some("")
      case OfExhibition(e) => e.title == Some("")
      case OfArtist(p) => p.name == Some("") || PersonModel.EffectiveName(p).None?
      case OfMedium(c) => c.name == Some("")
    ensures r.OfArtwork? ==> t == ArtworkModel.DisplayTitle(r.artwork)
    ensures r.OfExhibition? ==> t == ExhibitionModel.DisplayTitle(r.exhibition)
    ensures r.OfArtist? ==> t == PersonModel.EffectiveName(r.person).GetOr("")
    ensures r.OfMedium? ==> t == ClassificationModel.DisplayName(r.classification)
  {
    match r
    case OfArtwork(a) => ArtworkModel.DisplayTitle(a)
    case OfExhibition(e) => ExhibitionModel.DisplayTitle(e)
    case OfArtist(p) => PersonModel.EffectiveName(p).GetOr("")
    case OfMedium(c) => ClassificationModel.DisplayName(c)
  }

  /** `subtitle`: the artist line, the date range, or the object count; never empty for artworks and exhibitions. */
  function Subtitle(r: SearchResult, personCount: PersonModel.Person -> string): (t: string)
    ensures r.OfArtwork? || r.OfExhibition? ==> t != ""
    ensures r.OfMedium? ==> (t == "" <==> r.classification.objectcount.None?)
    ensures r.OfArtwork? ==> t == ArtworkModel.DisplayArtist(r.artwork)
    ensures r.OfExhibition? ==> t == ExhibitionModel.DisplayDateRange(r.exhibition)
    ensures r.OfArtist? ==> t == personCount(r.person)
    ensures r.OfMedium? ==> t == ClassificationModel.DisplayCount(r.classification)
  {
    match r
    case OfArtwork(a) => ArtworkModel.DisplayArtist(a)
    case OfExhibition(e) => ExhibitionModel.DisplayDateRange(e)
    case OfArtist(p) => personCount(p)
    case OfMedium(c) => ClassificationModel.DisplayCount(c)
  }

  const MediumDescription := "Medium/Classification"

  /** `description`: never empty for artworks and mediums; an artist's role, or "" without one. */
  function Description(r: SearchResult): (d: string)
    ensures r.OfArtwork? || r.OfMedium? ==> d != ""
    ensures r.OfArtist? ==> (d == "" <==> r.person.role.None? || r.person.role.value == "")
    ensures r.OfExhibition? ==> (d == "" <==> r.exhibition.description == Some(""))
    ensures r.OfArtwork? ==> d == ArtworkModel.DisplayDescription(r.artwork)
    ensures r.OfExhibition? ==> d == ExhibitionModel.DisplayDescription(r.exhibition)
    ensures r.OfArtist? ==> d == r.person.role.GetOr("")
    ensures r.OfMedium? ==> d == MediumDescription
  {
    match r
    case OfArtwork(a) => ArtworkModel.DisplayDescription(a)
    case OfExhibition(e) => ExhibitionModel.DisplayDescription(e)
    case OfArtist(p) => p.role.GetOr("")
    case OfMedium(_) => MediumDescription
  }

  /** `imageURL`: only artworks and exhibitions have an image, and an image URL is never empty. */
  function ImageURL(r: SearchResult): (u: Option<string>)
    ensures u.Some? ==> (r.OfArtwork? || r.OfExhibition?) && u.value != ""
    ensures r.OfArtwork? ==> (u.None? <==> r.artwork.primaryimageurl.GetOr("") == "")
    ensures r.OfExhibition? ==> (u.None? <==> r.exhibition.primaryimageurl.GetOr("") == "")
  {
    match r
    case OfArtwork(a) => ArtworkModel.ImageURL(a)
    case OfExhibition(e) => ExhibitionModel.ImageURL(e)
    case OfArtist(_) => None
    case OfMedium(_) => None
  }
}
