/**
 * The catalogue client (HarvardArtAPP/Networking/APIClient.swift): the query items each
 * endpoint sends, and the ordered chain of checks that turns a transport outcome into a
 * decoded response or an `APIError`.
 *
 * The network is not modelled: what the session returns is an input (`Transport`), and
 * whether `URLComponents` yields a URL is the boolean `urlBuilds`.
 */
module APIClient {
  import opened Wrappers
  import opened Text
  import opened APIResponse

  datatype QueryItem = QueryItem(name: string, value: string)

  /** One call of each of the seven request builders, with its arguments. */
  datatype Request =
    | FetchExhibitions(page: int, size: int)
    | FetchArtworksInExhibition(exhibitionId: int, page: int, size: int)
    | SearchArtworks(query: string, page: int, size: int)
    | SearchExhibitions(query: string, page: int, size: int)
    | SearchPeople(query: string, page: int, size: int)
    | SearchClassifications(query: string, page: int, size: int)
    | FetchArtworksByArtist(artistId: int, page: int, size: int)

  const DefaultSize := 20
  const BaseURL := "https://api.harvardartmuseums.org"
  const QualityTerms := "Harvard OR museum OR collection OR gallery OR masterpiece OR famous OR important OR significant OR major"

  /** The query the two relevance-boosted searches send: the user's query AND the quality terms. */
  function EnhancedQuery(query: string): (q: string)
    ensures IsPrefix(query, q)
    ensures q[|query|..] == " AND (" + QualityTerms + ")"
  {
    query + " AND (" + QualityTerms + ")"
  }

  /** The path each request hits: the artwork requests `/object`, the two exhibition requests `/exhibition`. */
  function Endpoint(r: Request): (e: string)
    ensures e == "/object" <==> IsArtworkRequest(r)
    ensures e == "/exhibition" <==> r.FetchExhibitions? || r.SearchExhibitions?
    ensures e == "/person" <==> r.SearchPeople?
    ensures e == "/classification" <==> r.SearchClassifications?
  {
    match r
    case FetchExhibitions(_, _) => "/exhibition"
    case SearchExhibitions(_, _, _) => "/exhibition"
    case FetchArtworksInExhibition(_, _, _) => "/object"
    case SearchArtworks(_, _, _) => "/object"
    case FetchArtworksByArtist(_, _, _) => "/object"
    case SearchPeople(_, _, _) => "/person"
    case SearchClassifications(_, _, _) => "/classification"
  }

  predicate IsArtworkRequest(r: Request) {
    r.FetchArtworksInExhibition? || r.SearchArtworks? || r.FetchArtworksByArtist?
  }

  /** The value sent under `name`, if any (the first such item). */
  function Lookup(items: seq<QueryItem>, name: string): (v: Option<string>)
    ensures v.Some? <==> exists i :: 0 <= i < |items| && items[i].name == name
  {
    if items == [] then None
    else if items[0].name == name then Some(items[0].value)
    else Lookup(items[1..], name)
  }

  /** The value a request sends as `q`, if it sends one. */
  function SearchTerm(r: Request): Option<string> {
    match r
    case FetchExhibitions(_, _) => Some(QualityTerms)
    case SearchArtworks(query, _, _) => Some(EnhancedQuery(query))
    case SearchExhibitions(query, _, _) => Some(EnhancedQuery(query))
    case SearchPeople(query, _, _) => Some(query)
    case SearchClassifications(query, _, _) => Some(query)
    case FetchArtworksInExhibition(_, _, _) => None
    case FetchArtworksByArtist(_, _, _) => None
  }

  /** The query items of each builder, in the order they are listed. */
  function QueryItems(apiKey: string, r: Request): (items: seq<QueryItem>)
    ensures |items| >= 4 && items[0] == QueryItem("apikey", apiKey)
  {
    var key := QueryItem("apikey", apiKey);
    var size := QueryItem("size", IntToDecimal(r.size));
    var page := QueryItem("page", IntToDecimal(r.page));
    var hasImage := QueryItem("hasimage", "1");
    match r
    case FetchExhibitions(_, _) => [key, size, page, QueryItem("q", QualityTerms)]
    case FetchArtworksInExhibition(id, _, _) => [key, QueryItem("exhibition", IntToDecimal(id)), size, page, hasImage]
    case SearchArtworks(query, _, _) => [key, QueryItem("q", EnhancedQuery(query)), size, page, hasImage]
    case SearchExhibitions(query, _, _) => [key, QueryItem("q", EnhancedQuery(query)), size, page]
    case SearchPeople(query, _, _) => [key, QueryItem("q", query), size, page]
    case SearchClassifications(query, _, _) => [key, QueryItem("q", query), size, page]
    case FetchArtworksByArtist(id, _, _) => [key, QueryItem("person", IntToDecimal(id)), size, page, hasImage]
  }

  /** Every request sends the key first, then page and size as the decimal renderings of its arguments. */
  lemma SendsKeyPageAndSize(apiKey: string, r: Request)
    ensures var items := QueryItems(apiKey, r);
      && Lookup(items, "apikey") == Some(apiKey)
      && Lookup(items, "size") == Some(IntToDecimal(r.size))
      && Lookup(items, "page") == Some(IntToDecimal(r.page))
  {
    var items := QueryItems(apiKey, r);
    var s := if r.FetchExhibitions? then 1 else 2;
    SizeAndPageAt(apiKey, r, s);
    LookupAt(items, "apikey", 0);
    LookupAt(items, "size", s);
    LookupAt(items, "page", s + 1);
  }

  /** Size and page follow the key and the request's own item, with no size or page item before them. */
  lemma SizeAndPageAt(apiKey: string, r: Request, s: nat)
    requires s == if r.FetchExhibitions? then 1 else 2
    ensures var items := QueryItems(apiKey, r);
      && s + 1 < |items| && items[s] == QueryItem("size", IntToDecimal(r.size)) && items[s + 1] == QueryItem("page", IntToDecimal(r.page))
      && (forall j :: 0 <= j < s + 1 ==> items[j].name != "page")
      && (forall j :: 0 <= j < s ==> items[j].name != "size")
      && (forall j :: 0 < j <= s + 1 ==> items[j].name != "apikey")
  {
    assert "apikey" != "size" && "apikey" != "page" && "size" != "page";
    assert "q" != "size" && "q" != "page" && "exhibition" != "size" && "exhibition" != "page";
    assert "person" != "size" && "person" != "page";
  }

  /** `hasimage=1` is sent by exactly the three artwork requests. */
  lemma SendsHasImageIffArtworkRequest(apiKey: string, r: Request)
    ensures Lookup(QueryItems(apiKey, r), "hasimage") == if IsArtworkRequest(r) then Some("1") else None
  {
    var items := QueryItems(apiKey, r);
    assert "hasimage" != "apikey" && "hasimage" != "size" && "hasimage" != "page" && "hasimage" != "q";
    assert "hasimage" != "exhibition" && "hasimage" != "person";
    if IsArtworkRequest(r) {
      LookupAt(items, "hasimage", 4);
    }
  }

  /** The string `URLComponents` is built from: the base URL followed by the request's path. */
  function ComponentsString(r: Request): (u: string)
    ensures IsPrefix(BaseURL, u) && u[|BaseURL|..] == Endpoint(r)
  {
    BaseURL + Endpoint(r)
  }

  /** A request goes to `/object` exactly when it sends `hasimage=1`. */
  lemma ObjectEndpointIffHasImage(apiKey: string, r: Request)
    ensures Endpoint(r) == "/object" <==> Lookup(QueryItems(apiKey, r), "hasimage") == Some("1")
  {
    SendsHasImageIffArtworkRequest(apiKey, r);
  }

  /**
   * The search term: the fixed quality terms for the exhibition list, the enhanced query for
   * artwork and exhibition searches, the raw query for people and classifications, none for
   * the exhibition- and artist-scoped artwork requests.
   */
  lemma SendsSearchTerm(apiKey: string, r: Request)
    ensures Lookup(QueryItems(apiKey, r), "q") == SearchTerm(r)
  {
    var items := QueryItems(apiKey, r);
    assert "q" != "apikey" && "q" != "size" && "q" != "page" && "q" != "hasimage";
    assert "q" != "exhibition" && "q" != "person";
    if r.FetchExhibitions? {
      LookupAt(items, "q", 3);
    } else if SearchTerm(r).Some? {
      LookupAt(items, "q", 1);
    }
  }

  /** The first item with a name decides what `Lookup` finds. */
  lemma {:induction false} LookupAt(items: seq<QueryItem>, name: string, i: nat)
    requires i < |items| && items[i].name == name
    requires forall j :: 0 <= j < i ==> items[j].name != name
    ensures Lookup(items, name) == Some(items[i].value)
  {
    if i > 0 {
      LookupAt(items[1..], name, i - 1);
    }
  }

  /** The artwork-scoped requests send the exhibition or person id in decimal. */
  lemma ScopedRequestsSendId(apiKey: string, r: Request)
    ensures r.FetchArtworksInExhibition? ==> Lookup(QueryItems(apiKey, r), "exhibition") == Some(IntToDecimal(r.exhibitionId))
    ensures r.FetchArtworksByArtist? ==> Lookup(QueryItems(apiKey, r), "person") == Some(IntToDecimal(r.artistId))
  {
    assert "apikey" != "exhibition" && "apikey" != "person";
  }

  /** The body the decoder sees: either it decodes, or the decoder throws with a description. */
  datatype Decoded<T> = Decodes(value: T) | Undecodable(reason: string)

  /** What `session.data(from:)` does: throw, return a non-HTTP response, or return an HTTP status and body. */
  datatype Transport<T> =
    | Thrown(description: string)
    | NonHttpResponse
    | HttpResponse(status: int, body: Decoded<T>)

  datatype APIError =
    | MissingAPIKey
    | InvalidURL
    | InvalidResponse
    | HttpError(code: int)
    | DecodingError(reason: string)

  /** What a request can throw: an `APIError`, or the session's own error passed through. */
  datatype RequestFailure = Api(error: APIError) | TransportFailure(description: string)

  /**
   * `performRequest`: the key check, the URL check, the transport, the response type, the
   * status range 200...299 and the decoder, in that order; the first that fails decides.
   */
  function PerformRequest<T>(apiKey: string, urlBuilds: bool, transport: Transport<Response<T>>): (r: Result<Response<T>, RequestFailure>)
    ensures r.Success? <==> apiKey != "" && urlBuilds && transport.HttpResponse?
                            && 200 <= transport.status <= 299 && transport.body.Decodes?
    ensures r.Success? ==> r.value == transport.body.value
    ensures apiKey == "" ==> r == Failure(Api(MissingAPIKey))
    ensures apiKey != "" && !urlBuilds ==> r == Failure(Api(InvalidURL))
  {
    if apiKey == "" then Failure(Api(MissingAPIKey))
    else if !urlBuilds then Failure(Api(InvalidURL))
    else match transport
      case Thrown(description) => Failure(TransportFailure(description))
      case NonHttpResponse => Failure(Api(InvalidResponse))
      case HttpResponse(status, body) =>
        if !(200 <= status <= 299) then Failure(Api(HttpError(status)))
        else match body
          case Decodes(value) => Success(value)
          case Undecodable(reason) => Failure(Api(DecodingError(reason)))
  }

  /**
   * Once the key and URL are fine, the failure is the first failing step: a thrown transport
   * error, then a non-HTTP response, then a status outside 200...299, then the decoder.
   */
  lemma PerformRequestFailureOrder<T>(apiKey: string, transport: Transport<Response<T>>)
    requires apiKey != ""
    ensures transport.Thrown? ==> PerformRequest(apiKey, true, transport) == Failure(TransportFailure(transport.description))
    ensures transport.NonHttpResponse? ==> PerformRequest(apiKey, true, transport) == Failure(Api(InvalidResponse))
    ensures transport.HttpResponse? && !(200 <= transport.status <= 299)
            ==> PerformRequest(apiKey, true, transport) == Failure(Api(HttpError(transport.status)))
    ensures transport.HttpResponse? && 200 <= transport.status <= 299 && transport.body.Undecodable?
            ==> PerformRequest(apiKey, true, transport) == Failure(Api(DecodingError(transport.body.reason)))
  {
  }

  /** `errorDescription`: a fixed message per case; the HTTP message carries the status code. */
  function ErrorDescription(e: APIError): (d: string)
    ensures e.HttpError? ==> d == "HTTP error: " + IntToDecimal(e.code)
    ensures e.DecodingError? ==> d == "Decoding error: " + e.reason
  {
    match e
    case MissingAPIKey => "API key not found in Secrets.plist"
    case InvalidURL => "Invalid URL"
    case InvalidResponse => "Invalid response"
    case HttpError(code) => "HTTP error: " + IntToDecimal(code)
    case DecodingError(reason) => "Decoding error: " + reason
  }

  /** The status code can be read back from an HTTP error message, and the fixed messages are distinct. */
  lemma ErrorDescriptionDistinguishes(e: APIError, f: APIError)
    requires ErrorDescription(e) == ErrorDescription(f)
    requires !e.DecodingError? && !f.DecodingError?
    ensures e == f
  {
    var d := ErrorDescription(e);
    HttpMessageInitial(e);
    HttpMessageInitial(f);
    if e.HttpError? && f.HttpError? {
      assert IntToDecimal(e.code) == d[12..] == IntToDecimal(f.code);
      IntToDecimalInjective(e.code, f.code);
    }
  }

  /** Only the HTTP error message starts with 'H'. */
  lemma HttpMessageInitial(e: APIError)
    ensures ErrorDescription(e)[0] == 'H' <==> e.HttpError?
  {
  }

  /** `error.localizedDescription` of what a request throws, as the view models store it. */
  function LocalizedDescription(f: RequestFailure): (d: string)
    ensures f.Api? ==> d == ErrorDescription(f.error)
    ensures f.TransportFailure? ==> d == f.description
  {
    match f
    case Api(e) => ErrorDescription(e)
    case TransportFailure(description) => description
  }
}
