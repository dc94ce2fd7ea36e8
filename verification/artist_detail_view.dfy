/**
 * The `Person` display helpers of the artist screen and the load it starts
 * (HarvardArtAPP/Features/ArtistDetail/ArtistDetailView.swift).
 */
module ArtistDetailView {
  import opened Wrappers
  import opened PersonModel
  import APIClient
  import ArtistDetailViewModel

  const UnknownArtistText := "Unknown Artist"

  /** `displayName`: the plain name, or "Unknown Artist" without one (the display name is not consulted). */
  function DisplayName(p: Person): (r: string)
    ensures p.name.Some? ==> r == p.name.value
    ensures p.name.None? ==> r == UnknownArtistText
  {
    p.name.GetOr(UnknownArtistText)
  }

  /** `displayDescription`: always empty. */
  function DisplayDescription(p: Person): (r: string)
    ensures r == ""
  {
    ""
  }

  /** The About section is shown only for a non-empty description, so it is never shown. */
  predicate ShowsAbout(p: Person) {
    DisplayDescription(p) != ""
  }

  /**
   * `displayDates`: "b - d" with both dates, "b. b" with the birth date only, "d. d" with the
   * death date only, and "" with neither. A present but empty date still counts as present.
   */
  function DisplayDates(p: Person): (r: string)
    ensures r == "" <==> p.birthdate.None? && p.deathdate.None?
    ensures p.birthdate.Some? && p.deathdate.Some? ==> r == p.birthdate.value + " - " + p.deathdate.value
    ensures p.birthdate.Some? && p.deathdate.None? ==> r == "b. " + p.birthdate.value
    ensures p.birthdate.None? && p.deathdate.Some? ==> r == "d. " + p.deathdate.value
  {
    if p.birthdate.Some? && p.deathdate.Some? then p.birthdate.value + " - " + p.deathdate.value
    else if p.birthdate.Some? then "b. " + p.birthdate.value
    else if p.deathdate.Some? then "d. " + p.deathdate.value
    else ""
  }

  /** `displayBirthPlace`: the birthplace, or "". */
  function DisplayBirthPlace(p: Person): (r: string)
    ensures p.birthplace.Some? ==> r == p.birthplace.value
    ensures p.birthplace.None? ==> r == ""
  {
    p.birthplace.GetOr("")
  }

  /** The About section never appears, whatever the person. */
  lemma AboutNeverShown(p: Person)
    ensures !ShowsAbout(p)
  {
  }

  /** The screen's `.task`: load the artist's artworks, using id 0 for a person without an id. */
  method OpenArtistScreen(artist: Person) returns (request: Option<APIClient.Request>)
    ensures artist.id.Some? ==> request == Some(APIClient.FetchArtworksByArtist(artist.id.value, 1, APIClient.DefaultSize))
    ensures artist.id.None? ==> request == Some(APIClient.FetchArtworksByArtist(0, 1, APIClient.DefaultSize))
  {
    var viewModel := new ArtistDetailViewModel.ArtistDetailState();
    request := viewModel.BeginLoad(artist.id.GetOr(0));
  }
}
