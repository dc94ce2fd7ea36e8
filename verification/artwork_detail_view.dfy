/**
 * The logic of the artwork screen (HarvardArtAPP/Features/ArtworkDetail/ArtworkDetailView.swift):
 * the medium guessed from the description, the artist line, and which detail rows appear.
 */
module ArtworkDetailView {
  import opened Wrappers
  import opened Text
  import opened PersonModel
  import opened ArtworkModel

  /** One medium keyword and the text shown when it occurs. */
  datatype Medium = Medium(keyword: string, shown: string)

  /** The keywords `extractMediumFromDescription` tries, in its order of priority. */
  const MediumTable: seq<Medium> := [
    Medium("oil on canvas", "Oil on canvas"),
    Medium("watercolor", "Watercolor"),
    Medium("bronze", "Bronze"),
    Medium("marble", "Marble"),
    Medium("photograph", "Photograph")]

  /** The text of the first entry of `table` whose keyword occurs in `text`. */
  function FirstMatch(text: string, table: seq<Medium>): (r: Option<string>)
    ensures r.None? <==> forall i :: 0 <= i < |table| ==> !Contains(text, table[i].keyword)
    ensures r.Some? ==> exists i :: 0 <= i < |table| && r.value == table[i].shown && Contains(text, table[i].keyword)
                                    && forall j :: 0 <= j < i ==> !Contains(text, table[j].keyword)
    decreases |table|
  {
    if table == [] then None
    else if Contains(text, table[0].keyword) then Some(table[0].shown)
    else
      var r := FirstMatch(text, table[1..]);
      if r.Some? then
        var i :| 0 <= i < |table[1..]| && r.value == table[1..][i].shown && Contains(text, table[1..][i].keyword)
                 && forall j :: 0 <= j < i ==> !Contains(text, table[1..][j].keyword);
        assert forall j :: 0 <= j < i + 1 ==> !Contains(text, table[j].keyword) by {
          forall j | 0 <= j < i + 1 ensures !Contains(text, table[j].keyword) {
            if j > 0 {
              assert table[j] == table[1..][j - 1];
            }
          }
        }
        assert table[i + 1] == table[1..][i];
        r
      else
        assert forall i :: 0 <= i < |table| ==> !Contains(text, table[i].keyword) by {
          forall i | 0 <= i < |table| ensures !Contains(text, table[i].keyword) {
            if i > 0 {
              assert table[i] == table[1..][i - 1];
            }
          }
        }
        r
  }

  /** `extractMediumFromDescription`: the keyword chain over the lowered display description. */
  function ExtractMedium(a: Artwork): Option<string> {
    var description := Lowercase(DisplayDescription(a));
    if Contains(description, "oil on canvas") then Some("Oil on canvas")
    else if Contains(description, "watercolor") then Some("Watercolor")
    else if Contains(description, "bronze") then Some("Bronze")
    else if Contains(description, "marble") then Some("Marble")
    else if Contains(description, "photograph") then Some("Photograph")
    else None
  }

  /**
   * The chain picks the first keyword of the table, in priority order, that occurs in the
   * lowered description, and gives nothing when none occurs.
   */
  lemma ExtractMediumIsFirstMatch(a: Artwork)
    ensures ExtractMedium(a) == FirstMatch(Lowercase(DisplayDescription(a)), MediumTable)
  {
    var d := Lowercase(DisplayDescription(a));
    var t := MediumTable;
    assert t[1..][1..][1..][1..][1..] == [];
  }

  /**
   * `formatArtistName(artistName)`: the first person's display name when there is a first
   * person with a non-empty display name, otherwise the name passed in.
   */
  function FormatArtistName(a: Artwork, artistName: string): (r: string)
    ensures HasFirstDisplayName(a) ==> r == a.people.value[0].displayname.value
    ensures !HasFirstDisplayName(a) ==> r == artistName
  {
    if HasFirstDisplayName(a) then a.people.value[0].displayname.value else artistName
  }

  /** There is a first person and their display name is present and non-empty. */
  predicate HasFirstDisplayName(a: Artwork) {
    a.people.Some? && a.people.value != [] && a.people.value[0].displayname.Some? && a.people.value[0].displayname.value != ""
  }

  /**
   * The artist line differs from the joined names only through the first person: with a
   * first display name it is that name, which is also the first joined name.
   */
  lemma FormatArtistNameUsesFirstPerson(a: Artwork)
    requires HasFirstDisplayName(a)
    ensures FormatArtistName(a, DisplayArtist(a)) == ArtistNames(a)[0]
  {
    var people := a.people.value;
    assert EffectiveNames(people)[0] == people[0].displayname.value;
  }

  /** The artist row appears for a non-empty artist line other than "Unknown Artist". */
  predicate ShowsArtist(a: Artwork) {
    DisplayArtist(a) != "" && DisplayArtist(a) != UnknownArtistText
  }

  /** The date row appears for a non-empty date other than "Date unknown". */
  predicate ShowsDate(a: Artwork) {
    DisplayDate(a) != "" && DisplayDate(a) != DateUnknownText
  }

  /** The description row appears for a non-empty description other than "No description available". */
  predicate ShowsDescription(a: Artwork) {
    DisplayDescription(a) != "" && DisplayDescription(a) != NoDescriptionText
  }

  /**
   * When each row appears: the artist row only if some person has a non-empty effective
   * name; the date row exactly for a present, non-empty date that is not the placeholder
   * text; the description row only for a non-empty description or label text, which it shows.
   */
  lemma RowVisibility(a: Artwork)
    ensures ShowsArtist(a) ==> ArtistNames(a) != []
    ensures ShowsDate(a) <==> a.dated.Some? && a.dated.value != "" && a.dated.value != DateUnknownText
    ensures ShowsDescription(a) ==> (a.description.Some? && DisplayDescription(a) == a.description.value != "")
                                    || (a.labeltext.Some? && DisplayDescription(a) == a.labeltext.value != "")
  {
  }

  /** An artwork whose only artist has a non-empty name shows the artist row with that name. */
  lemma SingleNamedArtistShown(a: Artwork, p: Person, n: string)
    requires a.people == Some([p]) && EffectiveName(p) == Some(n) && n != "" && n != UnknownArtistText
    ensures ShowsArtist(a) && DisplayArtist(a) == n
  {
    assert EffectiveNames([p]) == [n];
    assert ArtistNames(a) == [n];
  }
}
