/** `Exhibition` and its display fallbacks (HarvardArtAPP/Models/Exhibition.swift). */
module ExhibitionModel {
  import opened Wrappers

  datatype Exhibition = Exhibition(
    id: int,
    title: Option<string>,
    description: Option<string>,
    primaryimageurl: Option<string>,
    begindate: Option<string>,
    enddate: Option<string>)

  const UnknownExhibitionText := "Unknown Exhibition"
  const NoDescriptionText := "No description available"
  const DateUnknownText := "Date unknown"

  /** `displayTitle`: the title, or "Unknown Exhibition" when there is none. */
  function DisplayTitle(e: Exhibition): (r: string)
    ensures e.title.Some? ==> r == e.title.value
    ensures e.title.None? ==> r == UnknownExhibitionText
  {
    e.title.GetOr(UnknownExhibitionText)
  }

  /** `displayDescription`: the description (even when empty), or "No description available" when there is none. */
  function DisplayDescription(e: Exhibition): (r: string)
    ensures e.description.Some? ==> r == e.description.value
    ensures e.description.None? ==> r == NoDescriptionText
  {
    e.description.GetOr(NoDescriptionText)
  }

  /** `displayDateRange`: both bounds, one bound with a word before it, or "Date unknown"; a nil bound counts as empty. */
  function DisplayDateRange(e: Exhibition): (r: string)
    ensures r != ""
    ensures var b, d := e.begindate.GetOr(""), e.enddate.GetOr("");
      && (b != "" && d != "" ==> r == b + " - " + d)
      && (b != "" && d == "" ==> r == "From " + b)
      && (b == "" && d != "" ==> r == "Until " + d)
      && (b == "" && d == "" ==> r == DateUnknownText)
  {
    var begin := e.begindate.GetOr("");
    var end := e.enddate.GetOr("");
    if begin != "" && end != "" then begin + " - " + end
    else if begin != "" then "From " + begin
    else if end != "" then "Until " + end
    else DateUnknownText
  }

  /** A nil date bound gives the same date range as an empty one. */
  lemma NilDateIsEmptyDate(e: Exhibition)
    ensures e.begindate.None? ==> DisplayDateRange(e) == DisplayDateRange(e.(begindate := Some("")))
    ensures e.enddate.None? ==> DisplayDateRange(e) == DisplayDateRange(e.(enddate := Some("")))
  {
  }

  /** `imageURL`, with `URL(string:)` taken to accept every non-empty string. */
  function ImageURL(e: Exhibition): (r: Option<string>)
    ensures r.None? <==> e.primaryimageurl.None? || e.primaryimageurl.value == ""
    ensures r.Some? ==> r == e.primaryimageurl && r.value != ""
  {
    if e.primaryimageurl.Some? && e.primaryimageurl.value != "" then e.primaryimageurl else None
  }
}
