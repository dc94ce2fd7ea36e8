/** `Artwork` and its display fallbacks (HarvardArtAPP/Models/Artwork.swift). */
module ArtworkModel {
  import opened Wrappers
  import opened Text
  import opened Seqs
  import opened PersonModel

  /** `exhibitionId` and `exhibitionTitle` are set only by code that builds an artwork itself; they are never decoded. */
  datatype Artwork = Artwork(
    id: int,
    title: Option<string>,
    dated: Option<string>,
    description: Option<string>,
    labeltext: Option<string>,
    primaryimageurl: Option<string>,
    people: Option<seq<Person>>,
    exhibitionId: Option<int>,
    exhibitionTitle: Option<string>)

  const UntitledText := "Untitled"
  const UnknownArtistText := "Unknown Artist"
  const DateUnknownText := "Date unknown"
  const NoDescriptionText := "No description available"

  /** `displayTitle`: the title, or "Untitled" when there is none. An empty title stays empty. */
  function DisplayTitle(a: Artwork): (r: string)
    ensures a.title.Some? ==> r == a.title.value
    ensures a.title.None? ==> r == UntitledText
  {
    a.title.GetOr(UntitledText)
  }

  /** `people.compactMap { $0.effectiveName }`: the effective names that exist, in order. */
  function EffectiveNames(people: seq<Person>): (r: seq<string>)
    ensures |r| <= |people|
    ensures forall i :: 0 <= i < |r| ==> exists j :: 0 <= j < |people| && EffectiveName(people[j]) == Some(r[i])
    ensures forall j :: 0 <= j < |people| && EffectiveName(people[j]).Some? ==> EffectiveName(people[j]).value in r
  {
    if people == [] then []
    else
      var rest := EffectiveNames(people[1..]);
      assert forall i :: 0 <= i < |rest| ==> exists j :: 0 <= j < |people| && EffectiveName(people[j]) == Some(rest[i]) by {
        forall i | 0 <= i < |rest| ensures exists j :: 0 <= j < |people| && EffectiveName(people[j]) == Some(rest[i]) {
          var j :| 0 <= j < |people[1..]| && EffectiveName(people[1..][j]) == Some(rest[i]);
          assert people[1..][j] == people[j + 1];
        }
      }
      assert forall j :: 1 <= j < |people| && EffectiveName(people[j]).Some? ==> EffectiveName(people[j]).value in rest by {
        forall j | 1 <= j < |people| && EffectiveName(people[j]).Some? ensures EffectiveName(people[j]).value in rest {
          assert people[j] == people[1..][j - 1];
        }
      }
      match EffectiveName(people[0])
      case Some(n) => [n] + rest
      case None => rest
  }

  /**
   * The names keep the people's order: the names of two lists of people one after the other
   * are the first list's names followed by the second's.
   */
  lemma {:induction false} EffectiveNamesAppend(p: seq<Person>, q: seq<Person>)
    ensures EffectiveNames(p + q) == EffectiveNames(p) + EffectiveNames(q)
    decreases |p|
  {
    if p != [] {
      assert (p + q)[1..] == p[1..] + q;
      EffectiveNamesAppend(p[1..], q);
    } else {
      assert p + q == q;
    }
  }

  /** A person whose effective name exists and is non-empty, so `displayArtist` shows it. */
  predicate HasArtistName(p: Person) {
    EffectiveName(p).Some? && EffectiveName(p).value != ""
  }

  /**
   * The names `displayArtist` joins: the non-empty effective names of the artwork's people,
   * each of them as often as it occurs, in the people's order.
   */
  function ArtistNames(a: Artwork): (r: seq<string>)
    ensures forall i :: 0 <= i < |r| ==> r[i] != ""
    ensures a.people.None? || a.people.value == [] ==> r == []
    ensures a.people.Some? ==> forall i :: 0 <= i < |r| ==>
              exists j :: 0 <= j < |a.people.value| && EffectiveName(a.people.value[j]) == Some(r[i])
    ensures a.people.Some? ==> forall j :: 0 <= j < |a.people.value| && HasArtistName(a.people.value[j]) ==>
              EffectiveName(a.people.value[j]).value in r
    ensures a.people.Some? ==> IsSubsequence(r, EffectiveNames(a.people.value))
    ensures a.people.Some? ==> forall n :: n != "" ==> multiset(r)[n] == multiset(EffectiveNames(a.people.value))[n]
  {
    if a.people.Some? && a.people.value != [] then
      FilterIsSubsequence(EffectiveNames(a.people.value), n => n != "");
      assert forall n :: n != "" ==> multiset(Filter(EffectiveNames(a.people.value), n => n != ""))[n]
                                     == multiset(EffectiveNames(a.people.value))[n] by {
        forall n | n != "" {
          FilterCount(EffectiveNames(a.people.value), n => n != "", n);
        }
      }
      Filter(EffectiveNames(a.people.value), n => n != "")
    else []
  }

  /**
   * `displayArtist`: the artist names joined with ", ", or "Unknown Artist" when there is none.
   * It is never empty, and every artist name occurs in it.
   */
  function DisplayArtist(a: Artwork): (r: string)
    ensures r != ""
    ensures ArtistNames(a) == [] ==> r == UnknownArtistText
    ensures ArtistNames(a) != [] ==> r == Join(ArtistNames(a), ", ")
    ensures |ArtistNames(a)| == 1 ==> r == ArtistNames(a)[0]
    ensures forall k :: 0 <= k < |ArtistNames(a)| ==> Contains(r, ArtistNames(a)[k])
  {
    var names := ArtistNames(a);
    if names == [] then UnknownArtistText
    else
      var r := Join(names, ", ");
      forall k | 0 <= k < |names| ensures Contains(r, names[k]) {
        JoinContainsPart(names, ", ", k);
      }
      r
  }

  /**
   * Read against the people: "Unknown Artist" when no person has a non-empty effective name;
   * otherwise the joined names, in which every such name occurs.
   */
  lemma DisplayArtistOfPeople(a: Artwork)
    ensures (a.people.None? || forall j :: 0 <= j < |a.people.value| ==> !HasArtistName(a.people.value[j]))
            ==> DisplayArtist(a) == UnknownArtistText
    ensures a.people.Some? ==> forall j :: 0 <= j < |a.people.value| && HasArtistName(a.people.value[j]) ==>
              DisplayArtist(a) == Join(ArtistNames(a), ", ") && Contains(DisplayArtist(a), EffectiveName(a.people.value[j]).value)
  {
    var names := ArtistNames(a);
    if a.people.Some? {
      forall j | 0 <= j < |a.people.value| && HasArtistName(a.people.value[j])
        ensures DisplayArtist(a) == Join(names, ", ") && Contains(DisplayArtist(a), EffectiveName(a.people.value[j]).value)
      {
        var n := EffectiveName(a.people.value[j]).value;
        assert n in names;
        var k :| 0 <= k < |names| && names[k] == n;
      }
      if names != [] {
        var j :| 0 <= j < |a.people.value| && EffectiveName(a.people.value[j]) == Some(names[0]);
      }
    }
  }

  /** `displayDate`: the date string when present (even when empty), else "Date unknown". */
  function DisplayDate(a: Artwork): (r: string)
    ensures a.dated.Some? ==> r == a.dated.value
    ensures a.dated.None? ==> r == DateUnknownText
  {
    a.dated.GetOr(DateUnknownText)
  }

  /**
   * `displayDescription`: a non-empty description, else a non-empty label text, else
   * "No description available"; so it is never empty.
   */
  function DisplayDescription(a: Artwork): (r: string)
    ensures r != ""
    ensures a.description.Some? && a.description.value != "" ==> r == a.description.value
    ensures (a.description.None? || a.description.value == "") && a.labeltext.Some? && a.labeltext.value != ""
            ==> r == a.labeltext.value
    ensures r == a.description.GetOr("") || r == a.labeltext.GetOr("") || r == NoDescriptionText
  {
    if a.description.Some? && a.description.value != "" then a.description.value
    else if a.labeltext.Some? && a.labeltext.value != "" then a.labeltext.value
    else NoDescriptionText
  }

  /**
   * `imageURL`, with `URL(string:)` taken to accept every non-empty string: absent exactly
   * when `primaryimageurl` is nil or empty.
   */
  function ImageURL(a: Artwork): (r: Option<string>)
    ensures r.None? <==> a.primaryimageurl.None? || a.primaryimageurl.value == ""
    ensures r.Some? ==> r == a.primaryimageurl && r.value != ""
  {
    if a.primaryimageurl.Some? && a.primaryimageurl.value != "" then a.primaryimageurl else None
  }

  /** The stored properties of `Artwork`. */
  datatype Field = Id | Title | Dated | Description | Labeltext | Primaryimageurl | People | ExhibitionId | ExhibitionTitle

  /** `CodingKeys`: the JSON key each property is decoded from; the two provenance fields have none. */
  function JsonKey(f: Field): (k: Option<string>)
    ensures k.None? <==> f == ExhibitionId || f == ExhibitionTitle
    ensures f == Id ==> k == Some("objectid")
  {
    match f
    case Id => Some("objectid")
    case Title => Some("title")
    case Dated => Some("dated")
    case Description => Some("description")
    case Labeltext => Some("labeltext")
    case Primaryimageurl => Some("primaryimageurl")
    case People => Some("people")
    case ExhibitionId => None
    case ExhibitionTitle => None
  }

  /** No two properties are decoded from the same key, and no property from "id". */
  lemma JsonKeysDistinct(f: Field, g: Field)
    requires f != g && JsonKey(f).Some?
    ensures JsonKey(f) != JsonKey(g)
    ensures JsonKey(f) != Some("id")
  {
  }
}
