/**
 * The location-finder client: a base URL normalised to end in `/`, the API
 * key header, the four endpoints and the routing of a response into a
 * success or failure envelope. The HTTP transport and the JSON decoding of
 * response bodies are parameters: `send` stands for the GET request and a
 * BodyParser for what `DhlLocation(**data)`, `FailureResponse(**data)` and
 * `data.get("locations", [])` make of a response body. Each of them may fail,
 * as the Python code raises an exception then; a call that raises is the
 * outcome `Raised`.
 */
module Client {
  import opened Wrappers
  import Dicts
  import Definitions

  const DefaultApiUrl: string := "https://api.dhl.com/"
  const ApiKeyHeader: string := "DHL-API-Key"

  const FindByAddressPath: string := "location-finder/v1/find-by-address"
  const FindByGeoPath: string := "location-finder/v1/find-by-geo"
  const FindByKeywordIdPath: string := "location-finder/v1/find-by-keyword-id"
  const LocationsPath: string := "location-finder/v1/locations/"

  predicate EndsWithSlash(s: string)
  {
    |s| > 0 && s[|s| - 1] == '/'
  }

  /** The stored base URL: unchanged when it already ends in `/`, otherwise with one `/` appended. */
  function NormalizeUrl(url: string): (r: string)
    ensures EndsWithSlash(r)
    ensures r == url <==> EndsWithSlash(url)
    ensures |url| <= |r| <= |url| + 1 && r[..|url|] == url
  {
    if EndsWithSlash(url) then url else url + "/"
  }

  /** Normalising a normalised URL changes nothing. */
  lemma NormalizeIdempotent(url: string)
    ensures NormalizeUrl(NormalizeUrl(url)) == NormalizeUrl(url)
  {
  }

  /** The default base URL is already normalised. */
  lemma DefaultApiUrlNormalized()
    ensures NormalizeUrl(DefaultApiUrl) == DefaultApiUrl
  {
  }

  /** A GET request: URL, headers and the query parameters (None when none are sent). */
  datatype HttpRequest = HttpRequest(
    url: string,
    headers: seq<(string, string)>,
    params: Option<seq<(string, Definitions.WireValue)>>)

  /** A response: its status code and its body. */
  datatype HttpResponse<B> = HttpResponse(statusCode: int, body: B)

  /**
   * What `data.get("locations", [])` yields for a body: the key is missing,
   * it holds something iterable (its elements, in iteration order; an empty
   * object or string gives none), or the body is not a JSON object or the key
   * holds something iteration fails on (`null`, a number, a boolean).
   */
  datatype LocationsField<B> = Missing | Items(items: seq<B>) | Malformed

  /**
   * How bodies become values: a location, a failure response, and the
   * `locations` field. `location` and `failure` give None where the Python
   * code raises (a body that is not JSON, keys the dataclass does not accept,
   * a missing `status`, a location that fails validation).
   */
  datatype BodyParser<!B, L> = BodyParser(
    location: B -> Option<L>,
    failure: B -> Option<Definitions.FailureResponse>,
    locations: B -> LocationsField<B>)

  /** The payload of a successful call: one location or a list of them. */
  datatype LocationData<L> = One(location: L) | Many(locations: seq<L>)

  /** How a call ends: with a returned value, or with an exception. */
  datatype Outcome<T> = Returned(value: T) | Raised

  /**
   * `[DhlLocation(**data) for data in items]`: every element parsed in
   * order, or None as soon as one of them cannot be.
   */
  function ParseAll<B, L>(location: B -> Option<L>, items: seq<B>): (r: Option<seq<L>>)
    ensures r.Some? <==> forall i :: 0 <= i < |items| ==> location(items[i]).Some?
    ensures r.Some? ==> |r.value| == |items| && forall i :: 0 <= i < |items| ==> r.value[i] == location(items[i]).value
  {
    if items == [] then Some([])
    else
      match location(items[0])
      case None => None
      case Some(l) =>
        match ParseAll(location, items[1..])
        case None => None
        case Some(ls) => Some([l] + ls)
  }

  /** The data of a successful call, or None when parsing it raises. */
  function SuccessData<B, L>(body: B, listMode: bool, parse: BodyParser<B, L>): Option<LocationData<L>>
  {
    if listMode then
      match parse.locations(body)
      case Missing => Some(Many([]))
      case Malformed => None
      case Items(items) =>
        match ParseAll(parse.location, items)
        case None => None
        case Some(ls) => Some(Many(ls))
    else
      match parse.location(body)
      case None => None
      case Some(l) => Some(One(l))
  }

  /**
   * The response branch of `_call_endpoint`. Status 200 gives the parsed data
   * and `failed` false: in list mode one location per element of `locations`,
   * in order (none when the key is missing); otherwise a single location. Any
   * other status gives the failure response parsed from the body and `failed`
   * true. A body that does not parse raises. Whatever is returned has its flag
   * agreeing with its payload.
   */
  function Envelope<B, L>(response: HttpResponse<B>, listMode: bool, parse: BodyParser<B, L>)
    : (r: Outcome<Definitions.DhlResponse<LocationData<L>>>)
    ensures r.Returned? ==> r.value.Consistent()
    ensures r.Returned? ==> (r.value.failed <==> response.statusCode != 200)
    ensures response.statusCode != 200 ==>
      r == (match parse.failure(response.body)
            case None => Raised
            case Some(f) => Returned(Definitions.DhlResponse(Definitions.Failure(f), true)))
    ensures response.statusCode == 200 && !listMode ==>
      r == (match parse.location(response.body)
            case None => Raised
            case Some(l) => Returned(Definitions.DhlResponse(Definitions.Data(One(l)), false)))
    ensures response.statusCode == 200 && listMode && parse.locations(response.body).Malformed? ==> r == Raised
    ensures response.statusCode == 200 && listMode && parse.locations(response.body).Items? ==>
      var items := parse.locations(response.body).items;
      && (r.Returned? <==> forall i :: 0 <= i < |items| ==> parse.location(items[i]).Some?)
      && (r.Returned? ==>
            && r.value.response.data.Many?
            && |r.value.response.data.locations| == |items|
            && forall i :: 0 <= i < |items| ==> r.value.response.data.locations[i] == parse.location(items[i]).value)
  {
    if response.statusCode == 200 then
      match SuccessData(response.body, listMode, parse)
      case None => Raised
      case Some(data) => Returned(Definitions.DhlResponse(Definitions.Data(data), false))
    else
      match parse.failure(response.body)
      case None => Raised
      case Some(f) => Returned(Definitions.DhlResponse(Definitions.Failure(f), true))
  }

  /** A successful list-mode call whose body has no `locations` key yields the empty list. */
  lemma MissingLocationsIsEmpty<B, L>(response: HttpResponse<B>, parse: BodyParser<B, L>)
    requires response.statusCode == 200 && parse.locations(response.body) == Missing
    ensures Envelope(response, true, parse) == Returned(Definitions.DhlResponse(Definitions.Data(Many([])), false))
  {
  }

  /** The outcome of a call: a transport error raises, an answer goes through the envelope. */
  function Answer<B, L>(sent: Option<HttpResponse<B>>, listMode: bool, parse: BodyParser<B, L>)
    : (r: Outcome<Definitions.DhlResponse<LocationData<L>>>)
    ensures sent.None? ==> r == Raised
    ensures sent.Some? ==> r == Envelope(sent.value, listMode, parse)
  {
    match sent
    case None => Raised
    case Some(response) => Envelope(response, listMode, parse)
  }

  /** The query parameters sent for optional parameters: their encoding, or none at all. */
  function RequestParams(params: Option<Definitions.QueryParam>): Option<seq<(string, Definitions.WireValue)>>
  {
    match params
    case None => None
    case Some(q) => Some(Definitions.RequestFormat(q))
  }

  /** The text after the last `/` of a URL (all of it when it has none). */
  function LastSegment(url: string): (r: string)
    ensures '/' !in r
    ensures |r| <= |url| && r == url[|url| - |r|..]
    ensures |r| < |url| ==> url[|url| - |r| - 1] == '/'
  {
    if url == [] || url[|url| - 1] == '/' then [] else LastSegment(url[..|url| - 1]) + [url[|url| - 1]]
  }

  /**
   * The location id is appended to the locations path verbatim. It is not
   * percent-encoded, so it is the last path segment only when it has no `/`
   * of its own (nor a `?` or `#`: before sending, `requests` takes a `?` as
   * the start of the query and drops a `#` and all that follows).
   */
  lemma LocationIdLastSegment(apiUrl: string, locationId: string)
    requires '/' !in locationId
    ensures LastSegment(apiUrl + LocationsPath + locationId) == locationId
  {
    var prefix := apiUrl + LocationsPath;
    assert prefix[|prefix| - 1] == LocationsPath[|LocationsPath| - 1];
    LastSegmentAfterSlash(prefix, locationId);
  }

  /** After a `/`, a text without `/` is the last segment. */
  lemma {:induction false} LastSegmentAfterSlash(prefix: string, segment: string)
    requires EndsWithSlash(prefix) && '/' !in segment
    ensures LastSegment(prefix + segment) == segment
  {
    var url := prefix + segment;
    if segment != [] {
      var init := segment[..|segment| - 1];
      assert url[..|url| - 1] == prefix + init;
      LastSegmentAfterSlash(prefix, init);
      assert segment == init + [segment[|segment| - 1]];
    }
  }

  /** An id with a `/` of its own is split across path segments: its last segment is not the whole id. */
  lemma LocationIdWithSlash(apiUrl: string)
    ensures LastSegment(apiUrl + LocationsPath + "a/b") == "b"
  {
    var url := apiUrl + LocationsPath + "a/b";
    assert url[..|url| - 1] == apiUrl + LocationsPath + "a/";
    assert url[..|url| - 1][|url| - 2] == '/';
  }

  class DhlLocationFinderClient {
    const apiKey: string
    const apiUrl: string

    /** Keeps the key and stores the base URL normalised, so that it ends in `/`. */
    constructor(apiKey: string, apiUrl: string := DefaultApiUrl)
      ensures this.apiKey == apiKey
      ensures this.apiUrl == NormalizeUrl(apiUrl)
      ensures EndsWithSlash(this.apiUrl)
    {
      this.apiKey := apiKey;
      this.apiUrl := NormalizeUrl(apiUrl);
    }

    /** The headers of every request: the API key under `DHL-API-Key` and nothing else. */
    function RequestHeaders(): (headers: seq<(string, string)>)
      ensures Dicts.Keys(headers) == [ApiKeyHeader]
      ensures Dicts.Lookup(headers, ApiKeyHeader) == Some(apiKey)
    {
      [(ApiKeyHeader, apiKey)]
    }

    /** The request `_call_endpoint` sends. */
    function Request(endpoint: string, params: Option<Definitions.QueryParam>): HttpRequest
    {
      HttpRequest(endpoint, RequestHeaders(), RequestParams(params))
    }

    /**
     * `_call_endpoint`: sends the GET request with the API key header and the
     * encoded parameters (None giving no answer), then routes the response
     * into the envelope.
     */
    method CallEndpoint<B, L>(
      endpoint: string, params: Option<Definitions.QueryParam>, listMode: bool,
      send: HttpRequest -> Option<HttpResponse<B>>, parse: BodyParser<B, L>)
      returns (r: Outcome<Definitions.DhlResponse<LocationData<L>>>)
      ensures r == Answer(send(Request(endpoint, params)), listMode, parse)
      ensures r.Returned? ==> r.value.Consistent()
    {
      var requestParams: Option<seq<(string, Definitions.WireValue)>> := None;
      if params.Some? {
        var apiFormat := Definitions.ToRequestFormat(params.value);
        requestParams := Some(apiFormat);
      }
      var response := send(HttpRequest(endpoint, RequestHeaders(), requestParams));
      if response.None? {
        return Raised;
      }
      r := Envelope(response.value, listMode, parse);
    }

    /** Address search: the find-by-address endpoint in list mode. */
    method FindByAddress<B, L>(
      params: Definitions.FindByAddressQueryParams,
      send: HttpRequest -> Option<HttpResponse<B>>, parse: BodyParser<B, L>)
      returns (r: Outcome<Definitions.DhlResponse<LocationData<L>>>)
      ensures var request := HttpRequest(apiUrl + FindByAddressPath, RequestHeaders(), Some(Definitions.AddressWire(params)));
        r == Answer(send(request), true, parse)
      ensures r.Returned? ==> r.value.Consistent() && (!r.value.failed ==> r.value.response.data.Many?)
    {
      r := CallEndpoint(apiUrl + FindByAddressPath, Some(Definitions.AddressQuery(params)), true, send, parse);
    }

    /** Geo search: the find-by-geo endpoint in list mode. */
    method FindByGeo<B, L>(
      params: Definitions.FindByGeoQueryParams,
      send: HttpRequest -> Option<HttpResponse<B>>, parse: BodyParser<B, L>)
      returns (r: Outcome<Definitions.DhlResponse<LocationData<L>>>)
      ensures var request := HttpRequest(apiUrl + FindByGeoPath, RequestHeaders(), Some(Definitions.GeoWire(params)));
        r == Answer(send(request), true, parse)
      ensures r.Returned? ==> r.value.Consistent() && (!r.value.failed ==> r.value.response.data.Many?)
    {
      r := CallEndpoint(apiUrl + FindByGeoPath, Some(Definitions.GeoQuery(params)), true, send, parse);
    }

    /** Keyword-id search: the find-by-keyword-id endpoint in single-object mode. */
    method FindByKeywordId<B, L>(
      params: Definitions.FindByKeywordIdQueryParams,
      send: HttpRequest -> Option<HttpResponse<B>>, parse: BodyParser<B, L>)
      returns (r: Outcome<Definitions.DhlResponse<LocationData<L>>>)
      ensures var request := HttpRequest(apiUrl + FindByKeywordIdPath, RequestHeaders(), Some(Definitions.KeywordIdWire(params)));
        r == Answer(send(request), false, parse)
      ensures r.Returned? ==> r.value.Consistent() && (!r.value.failed ==> r.value.response.data.One?)
    {
      r := CallEndpoint(apiUrl + FindByKeywordIdPath, Some(Definitions.KeywordIdQuery(params)), false, send, parse);
    }

    /** Location-id lookup: the id appended to the locations path, no query parameters, single-object mode. */
    method FindByLocationId<B, L>(
      locationId: string,
      send: HttpRequest -> Option<HttpResponse<B>>, parse: BodyParser<B, L>)
      returns (r: Outcome<Definitions.DhlResponse<LocationData<L>>>)
      ensures var request := HttpRequest(apiUrl + LocationsPath + locationId, RequestHeaders(), None);
        r == Answer(send(request), false, parse)
      ensures r.Returned? ==> r.value.Consistent() && (!r.value.failed ==> r.value.response.data.One?)
    {
      r := CallEndpoint(apiUrl + LocationsPath + locationId, None, false, send, parse);
    }
  }
}
