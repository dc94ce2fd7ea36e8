/**
 * The overview generator (HarvardArtAPP/Networking/GeminiService.swift): the prompt built
 * from an artwork and its exhibition, and the ordered checks that turn the model service's
 * reply into overview text or a `GeminiError`.
 */
module GeminiService {
  import opened Wrappers
  import opened Text
  import ArtworkModel
  import ExhibitionModel
  import APIClient

  const Intro := "Please provide a concise historical overview of this artwork in exactly 1 paragraph (4-6 sentences). Focus on the most important historical context, artistic significance, and one interesting fact. Keep it engaging and informative for museum visitors.\n\nArtwork Details:\n"
  const Closing := "\nProvide only the most essential historical context, key artistic techniques or style, cultural significance, and one compelling fact about this piece. Write in a single, well-structured paragraph that flows naturally. Make it accessible and engaging for general museum visitors."
  const SearchResultsTitle := "Search Results"

  /** The description line is sent only for a real description. */
  predicate IsRealDescription(description: string) {
    description != "" && description != ArtworkModel.NoDescriptionText
  }

  /** The exhibition line is sent unless the title is empty or the placeholder of search results. */
  predicate IsRealExhibitionTitle(title: string) {
    title != "" && title != SearchResultsTitle
  }

  /** The start of every line of a field: `- <field>: `. */
  function LinePrefix(field: string): string {
    "- " + field + ": "
  }

  function Line(field: string, value: string): string {
    LinePrefix(field) + value
  }

  /** The detail lines of the prompt, in order, from the display fields of the artwork and exhibition. */
  function DetailLines(title: string, artist: string, date: string, description: string, exhibition: string): (lines: seq<string>)
    ensures 3 <= |lines| <= 5
  {
    [Line("Title", title), Line("Artist", artist), Line("Date", date)]
    + (if IsRealDescription(description) then [Line("Description", description)] else [])
    + (if IsRealExhibitionTitle(exhibition) then [Line("Exhibition", exhibition)] else [])
  }

  /** The detail lines for an artwork shown within an exhibition. */
  function DetailLinesFor(a: ArtworkModel.Artwork, e: ExhibitionModel.Exhibition): seq<string> {
    DetailLines(ArtworkModel.DisplayTitle(a), ArtworkModel.DisplayArtist(a), ArtworkModel.DisplayDate(a),
                ArtworkModel.DisplayDescription(a), ExhibitionModel.DisplayTitle(e))
  }

  /** Some line carries the given field name. */
  predicate HasLine(lines: seq<string>, field: string) {
    exists i :: 0 <= i < |lines| && IsPrefix(LinePrefix(field), lines[i])
  }

  /** A line is not taken for a line of another field when the names differ at some position. */
  lemma LineFieldsDiffer(field: string, other: string, value: string, k: nat)
    requires k < |field| && k < |other| && field[k] != other[k]
    ensures !IsPrefix(LinePrefix(other), Line(field, value))
  {
    var p := LinePrefix(other);
    var l := Line(field, value);
    assert p[k + 2] != l[k + 2];
  }

  /**
   * The prompt always has Title, Artist and Date lines, in that order; it has a Description
   * line exactly for a real description and an Exhibition line exactly for a real exhibition
   * title, and the Exhibition line is then the last one.
   */
  lemma DetailLinesContent(title: string, artist: string, date: string, description: string, exhibition: string)
    ensures var lines := DetailLines(title, artist, date, description, exhibition);
      && lines[..3] == [Line("Title", title), Line("Artist", artist), Line("Date", date)]
      && (HasLine(lines, "Description") <==> IsRealDescription(description))
      && (HasLine(lines, "Exhibition") <==> IsRealExhibitionTitle(exhibition))
      && (IsRealExhibitionTitle(exhibition) ==> lines[|lines| - 1] == Line("Exhibition", exhibition))
  {
    var fixed := [Line("Title", title), Line("Artist", artist), Line("Date", date)];
    var descriptionLines := if IsRealDescription(description) then [Line("Description", description)] else [];
    var exhibitionLines := if IsRealExhibitionTitle(exhibition) then [Line("Exhibition", exhibition)] else [];
    assert DetailLines(title, artist, date, description, exhibition) == fixed + descriptionLines + exhibitionLines;
    FixedLinesAreNotOptional(title, artist, date);
    OptionalLine("Description", "Exhibition", description, IsRealDescription(description));
    OptionalLine("Exhibition", "Description", exhibition, IsRealExhibitionTitle(exhibition));
    HasLineConcat(fixed, descriptionLines, "Description");
    HasLineConcat(fixed + descriptionLines, exhibitionLines, "Description");
    HasLineConcat(fixed, descriptionLines, "Exhibition");
    HasLineConcat(fixed + descriptionLines, exhibitionLines, "Exhibition");
  }

  /** A line that is present or not carries its own field exactly when present, and never another field. */
  lemma OptionalLine(field: string, other: string, value: string, present: bool)
    requires |field| > 0 && |other| > 0 && field[0] != other[0]
    ensures var lines := if present then [Line(field, value)] else [];
            (HasLine(lines, field) <==> present) && !HasLine(lines, other)
  {
    LineFieldsDiffer(field, other, value, 0);
    if present {
      assert IsPrefix(LinePrefix(field), [Line(field, value)][0]);
    }
  }

  /** A concatenation has a line of some field exactly when one of its parts does. */
  lemma HasLineConcat(xs: seq<string>, ys: seq<string>, field: string)
    ensures HasLine(xs + ys, field) <==> HasLine(xs, field) || HasLine(ys, field)
  {
    if HasLine(xs + ys, field) {
      var i :| 0 <= i < |xs + ys| && IsPrefix(LinePrefix(field), (xs + ys)[i]);
      if i >= |xs| {
        assert ys[i - |xs|] == (xs + ys)[i];
      }
    }
    if HasLine(xs, field) {
      var i :| 0 <= i < |xs| && IsPrefix(LinePrefix(field), xs[i]);
      assert (xs + ys)[i] == xs[i];
    }
    if HasLine(ys, field) {
      var i :| 0 <= i < |ys| && IsPrefix(LinePrefix(field), ys[i]);
      assert (xs + ys)[|xs| + i] == ys[i];
    }
  }

  /** The Title, Artist and Date lines are never taken for a Description or Exhibition line. */
  lemma FixedLinesAreNotOptional(title: string, artist: string, date: string)
    ensures !HasLine([Line("Title", title), Line("Artist", artist), Line("Date", date)], "Description")
    ensures !HasLine([Line("Title", title), Line("Artist", artist), Line("Date", date)], "Exhibition")
  {
    var fixed := [Line("Title", title), Line("Artist", artist), Line("Date", date)];
    forall i | 0 <= i < 3
      ensures !IsPrefix(LinePrefix("Description"), fixed[i]) && !IsPrefix(LinePrefix("Exhibition"), fixed[i])
    {
      if i == 0 {
        LineFieldsDiffer("Title", "Description", title, 0);
        LineFieldsDiffer("Title", "Exhibition", title, 0);
      } else if i == 1 {
        LineFieldsDiffer("Artist", "Description", artist, 0);
        LineFieldsDiffer("Artist", "Exhibition", artist, 0);
      } else {
        LineFieldsDiffer("Date", "Description", date, 1);
        LineFieldsDiffer("Date", "Exhibition", date, 0);
      }
    }
  }

  /** Since `displayDescription` is never empty, only its placeholder keeps the Description line out. */
  lemma DescriptionLineIffReal(a: ArtworkModel.Artwork, e: ExhibitionModel.Exhibition)
    ensures HasLine(DetailLinesFor(a, e), "Description") <==> ArtworkModel.DisplayDescription(a) != ArtworkModel.NoDescriptionText
  {
    DetailLinesContent(ArtworkModel.DisplayTitle(a), ArtworkModel.DisplayArtist(a), ArtworkModel.DisplayDate(a),
                       ArtworkModel.DisplayDescription(a), ExhibitionModel.DisplayTitle(e));
  }

  /** `createPrompt`: the fixed introduction, the detail lines, then the fixed closing paragraph. */
  method CreatePrompt(a: ArtworkModel.Artwork, e: ExhibitionModel.Exhibition) returns (prompt: string)
    ensures prompt == Intro + Join(DetailLinesFor(a, e), "\n") + Closing
  {
    prompt := BuildPrompt(Intro, Closing, ArtworkModel.DisplayTitle(a), ArtworkModel.DisplayArtist(a), ArtworkModel.DisplayDate(a),
                          ArtworkModel.DisplayDescription(a), ExhibitionModel.DisplayTitle(e));
  }

  /**
   * The statements of `createPrompt` over the display fields, with the two fixed paragraphs
   * as parameters: the literal with the first three lines, one `+=` per optional line, then
   * the closing paragraph.
   */
  method BuildPrompt(intro: string, closing: string, title: string, artist: string, date: string, description: string, exhibition: string)
    returns (prompt: string)
    ensures prompt == intro + Join(DetailLines(title, artist, date, description, exhibition), "\n") + closing
  {
    prompt := intro + Line("Title", title) + "\n" + Line("Artist", artist) + "\n" + Line("Date", date);
    ghost var lines := [Line("Title", title), Line("Artist", artist), Line("Date", date)];
    FixedLinesJoin(intro, title, artist, date);
    if description != "" && description != ArtworkModel.NoDescriptionText {
      JoinSnocAfter(intro, lines, "\n", Line("Description", description));
      prompt := prompt + "\n" + Line("Description", description);
      lines := lines + [Line("Description", description)];
    }
    if exhibition != "" && exhibition != SearchResultsTitle {
      JoinSnocAfter(intro, lines, "\n", Line("Exhibition", exhibition));
      prompt := prompt + "\n" + Line("Exhibition", exhibition);
      lines := lines + [Line("Exhibition", exhibition)];
    }
    assert lines == DetailLines(title, artist, date, description, exhibition);
    prompt := prompt + closing;
  }

  /** The first three lines joined, as the initial prompt literal spells them out. */
  lemma FixedLinesJoin(intro: string, title: string, artist: string, date: string)
    ensures intro + Line("Title", title) + "\n" + Line("Artist", artist) + "\n" + Line("Date", date)
            == intro + Join([Line("Title", title), Line("Artist", artist), Line("Date", date)], "\n")
  {
    JoinSnoc([Line("Title", title)], "\n", Line("Artist", artist));
    JoinSnoc([Line("Title", title), Line("Artist", artist)], "\n", Line("Date", date));
    assert [Line("Title", title), Line("Artist", artist)] + [Line("Date", date)]
        == [Line("Title", title), Line("Artist", artist), Line("Date", date)];
  }

  /** What the decoder made of the reply body: candidates, each with the texts of its parts. */
  datatype GeminiResponse = GeminiResponse(candidates: seq<seq<string>>)

  /** The error a `decodingError` wraps: the decoder's own, or the `noContent` thrown inside the same `do`. */
  datatype DecodeCause = DecoderFailed(reason: string) | NoContentThrown

  datatype GeminiError =
    | MissingAPIKey
    | InvalidURL
    | EncodingError(reason: string)
    | DecodingError(cause: DecodeCause)
    | InvalidResponse
    | ApiError(statusCode: int)
    | NoContent

  datatype OverviewFailure = Gemini(error: GeminiError) | SessionFailure(description: string)

  /**
   * `generateArtworkOverview`: the key, the URL, the body encoding, the transport, the
   * response type, status exactly 200, then decoding and the first part of the first
   * candidate, in that order. `encodeFailure` is the encoder's error, if it throws.
   */
  function GenerateOverview(apiKey: string, urlBuilds: bool, encodeFailure: Option<string>,
                            transport: APIClient.Transport<GeminiResponse>): (r: Result<string, OverviewFailure>)
    ensures r.Success? <==> apiKey != "" && urlBuilds && encodeFailure.None? && transport.HttpResponse?
                            && transport.status == 200 && transport.body.Decodes?
                            && |transport.body.value.candidates| > 0 && |transport.body.value.candidates[0]| > 0
    ensures r.Success? ==> r.value == transport.body.value.candidates[0][0]
    ensures apiKey == "" ==> r == Failure(Gemini(MissingAPIKey))
  {
    if apiKey == "" then Failure(Gemini(MissingAPIKey))
    else if !urlBuilds then Failure(Gemini(InvalidURL))
    else if encodeFailure.Some? then Failure(Gemini(EncodingError(encodeFailure.value)))
    else match transport
      case Thrown(description) => Failure(SessionFailure(description))
      case NonHttpResponse => Failure(Gemini(InvalidResponse))
      case HttpResponse(status, body) =>
        if status != 200 then Failure(Gemini(ApiError(status)))
        else match body
          case Undecodable(reason) => Failure(Gemini(DecodingError(DecoderFailed(reason))))
          case Decodes(response) =>
            if response.candidates == [] || response.candidates[0] == [] then Failure(Gemini(DecodingError(NoContentThrown)))
            else Success(response.candidates[0][0])
  }

  /**
   * Only status 200 is accepted (a 2xx other than 200 is an `apiError`), and an empty reply
   * surfaces as a decoding error wrapping `noContent`: `noContent` itself is never thrown.
   */
  lemma GenerateOverviewClassification(apiKey: string, encodeFailure: Option<string>, transport: APIClient.Transport<GeminiResponse>)
    requires apiKey != "" && encodeFailure.None?
    ensures transport.HttpResponse? && transport.status != 200
            ==> GenerateOverview(apiKey, true, encodeFailure, transport) == Failure(Gemini(ApiError(transport.status)))
    ensures transport.HttpResponse? && transport.status == 200 && transport.body.Decodes?
            && (transport.body.value.candidates == [] || transport.body.value.candidates[0] == [])
            ==> GenerateOverview(apiKey, true, encodeFailure, transport) == Failure(Gemini(DecodingError(NoContentThrown)))
    ensures GenerateOverview(apiKey, true, encodeFailure, transport) != Failure(Gemini(NoContent))
  {
  }

  function CauseDescription(c: DecodeCause): string {
    match c
    case DecoderFailed(reason) => reason
    case NoContentThrown => NoContentText
  }

  const NoContentText := "No content received from API"

  /** `errorDescription`: a fixed message per case, with the status code or the wrapped error's text. */
  function ErrorDescription(e: GeminiError): (d: string)
    ensures e.ApiError? ==> d == "API error with status code: " + IntToDecimal(e.statusCode)
    ensures e.DecodingError? ==> d == "Failed to decode response: " + CauseDescription(e.cause)
  {
    match e
    case MissingAPIKey => "Gemini API key not found. Please add GEMINI_API_KEY to Secrets.plist"
    case InvalidURL => "Invalid API URL"
    case EncodingError(reason) => "Failed to encode request: " + reason
    case DecodingError(cause) => "Failed to decode response: " + CauseDescription(cause)
    case InvalidResponse => "Invalid response from server"
    case ApiError(statusCode) => "API error with status code: " + IntToDecimal(statusCode)
    case NoContent => NoContentText
  }

  /** `error.localizedDescription` of what the generator throws. */
  function LocalizedDescription(f: OverviewFailure): (d: string)
    ensures f.Gemini? ==> d == ErrorDescription(f.error)
    ensures f.SessionFailure? ==> d == f.description
  {
    match f
    case Gemini(e) => ErrorDescription(e)
    case SessionFailure(description) => description
  }

  /** An empty reply reaches the user as the decoding message around the no-content text. */
  lemma EmptyReplyMessage()
    ensures LocalizedDescription(Gemini(DecodingError(NoContentThrown))) == "Failed to decode response: " + NoContentText
    ensures LocalizedDescription(Gemini(DecodingError(NoContentThrown))) != LocalizedDescription(Gemini(NoContent))
  {
  }
}
