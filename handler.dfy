/** The request handler and the search pipeline it drives.

    The handler reads `query`, `apiKey`, `count` and `randomize` from the JSON
    body, answers 400 when `query` or `apiKey` is missing or empty, and
    otherwise runs the search: page selection, one upstream request, and the
    refinement of its reply. An `HTTPException` raised on the way keeps its
    status; any other exception becomes 500.

    The network is a parameter: `fetch` gives the upstream reply to a request,
    and the scout's outcome is given as a value. */
module Handler {
  import opened PexelsData
  import opened PageSelection
  import opened Refinement

  const DefaultCount: int := 3
  const Orientation: string := "landscape"

  const OkStatus: int := 200
  const BadRequest: int := 400
  const InternalError: int := 500

  /** The fields the handler reads from the request body; `None` is a missing key. */
  datatype RequestBody = RequestBody(query: Option<string>, apiKey: Option<string>,
                                     count: Option<int>, randomize: Option<bool>)

  /** The arguments the handler passes to the search. */
  datatype SearchParams = SearchParams(query: string, apiKey: string, count: int, randomize: bool)

  /** An exception on its way to the handler's `except` block: an
      `HTTPException` with its status, or anything else. */
  datatype Failure = HttpError(status: int) | Unexpected

  /** What the main upstream request produced: a reply with its status and its
      body decoded as JSON (`None` when it does not decode), or a transport
      failure (connection error, timeout). */
  datatype UpstreamReply = Reply(statusCode: int, payload: Option<Payload>) | TransportError

  /** The main upstream request: the `Authorization` header and the query
      parameters. */
  datatype PexelsQuery = PexelsQuery(authorization: string, query: string, perPage: int,
                                     orientation: string, page: int)

  /** What the handler sends back: the refined reply, or an HTTP error status. */
  datatype Response = Ok(result: SearchResult) | ErrorResponse(status: int)

  /** Python truthiness of an optional string: present and non-empty. */
  predicate Truthy(s: Option<string>) {
    s.Some? && s.value != ""
  }

  /** Reads the parameters with their defaults and rejects a request whose
      `query` or `apiKey` is missing or empty. */
  function Validate(body: RequestBody): (r: Result<SearchParams, Failure>)
    ensures r.Failure? <==> !Truthy(body.query) || !Truthy(body.apiKey)
    ensures r.Failure? ==> r.error == HttpError(BadRequest)
    ensures r.Success? ==> body.query == Some(r.value.query) && r.value.query != ""
    ensures r.Success? ==> body.apiKey == Some(r.value.apiKey) && r.value.apiKey != ""
    ensures r.Success? && body.count.None? ==> r.value.count == DefaultCount
    ensures r.Success? && body.count.Some? ==> r.value.count == body.count.value
    ensures r.Success? ==> (r.value.randomize <==> body.randomize == Some(true))
  {
    if !Truthy(body.query) || !Truthy(body.apiKey) then
      Failure(HttpError(BadRequest))
    else
      var count := match body.count case None => DefaultCount case Some(c) => c;
      var randomize := match body.randomize case None => false case Some(b) => b;
      Success(SearchParams(body.query.value, body.apiKey.value, count, randomize))
  }

  /** The `except` block: an `HTTPException` is re-raised with its own status,
      anything else becomes 500. */
  function StatusOf(f: Failure): (status: int)
    ensures f.HttpError? ==> status == f.status
    ensures f.Unexpected? ==> status == InternalError
  {
    match f
    case HttpError(status) => status
    case Unexpected => InternalError
  }

  /** The upstream request the search makes for `params` once the page is chosen. */
  predicate RequestFor(q: PexelsQuery, params: SearchParams, scout: ScoutOutcome)
    ensures RequestFor(q, params, scout) ==> 1 <= q.page <= MaxPage
    ensures RequestFor(q, params, scout) && !params.randomize ==> q.page == 1
  {
    && q.authorization == params.apiKey
    && q.query == params.query
    && q.perPage == params.count
    && q.orientation == Orientation
    && 1 <= q.page <= DrawBound(params.randomize, scout)
  }

  /** The search: chooses the page, makes the main request, and refines a
      successful reply. A non-200 reply raises an `HTTPException` carrying the
      upstream status; a transport failure or a body that is not JSON raises
      some other exception. `scouted` says whether the scout request was made
      before the main one. */
  method SearchVideos(params: SearchParams, scout: ScoutOutcome, fetch: PexelsQuery -> UpstreamReply)
    returns (scouted: bool, request: PexelsQuery, r: Result<SearchResult, Failure>)
    ensures scouted == params.randomize
    ensures RequestFor(request, params, scout)
    ensures !params.randomize ==> request.page == 1
    ensures fetch(request).TransportError? ==> r == Failure(Unexpected)
    ensures fetch(request).Reply? && fetch(request).statusCode != OkStatus
      ==> r == Failure(HttpError(fetch(request).statusCode))
    ensures fetch(request) == Reply(OkStatus, None) ==> r == Failure(Unexpected)
    ensures fetch(request).Reply? && fetch(request).statusCode == OkStatus && fetch(request).payload.Some?
      ==> r == Success(SearchResult(SuccessStatus, Refined(VideosOf(fetch(request).payload.value))))
    ensures r.Success? ==> r.value.status == SuccessStatus
  {
    var page;
    page, scouted := ResolvePage(params.randomize, scout);
    request := PexelsQuery(params.apiKey, params.query, params.count, Orientation, page);
    var reply := fetch(request);
    match reply {
      case TransportError =>
        r := Failure(Unexpected);
      case Reply(status, payload) =>
        if status != OkStatus {
          r := Failure(HttpError(status));
        } else if payload.None? {
          r := Failure(Unexpected);
        } else {
          var refined := Refine(payload.value);
          r := Success(refined);
        }
    }
  }

  /** The endpoint. `body` is `None` when the request body is not a JSON
      object, which makes reading it raise. `scouted` says whether the scout
      request was made and `request` is the main upstream request, `None` when
      the handler answered without searching. */
  method Handle(body: Option<RequestBody>, scout: ScoutOutcome, fetch: PexelsQuery -> UpstreamReply)
    returns (scouted: bool, request: Option<PexelsQuery>, response: Response)
    ensures body.None? ==> !scouted && request.None? && response == ErrorResponse(InternalError)
    ensures body.Some? && (!Truthy(body.value.query) || !Truthy(body.value.apiKey))
      ==> !scouted && request.None? && response == ErrorResponse(BadRequest)
    ensures request.Some? <==> body.Some? && Validate(body.value).Success?
    ensures scouted <==> request.Some? && Validate(body.value).value.randomize
    ensures request.Some? ==> RequestFor(request.value, Validate(body.value).value, scout)
    ensures request.Some? && fetch(request.value).TransportError?
      ==> response == ErrorResponse(InternalError)
    ensures request.Some? && fetch(request.value).Reply? && fetch(request.value).statusCode != OkStatus
      ==> response == ErrorResponse(fetch(request.value).statusCode)
    ensures request.Some? && fetch(request.value) == Reply(OkStatus, None)
      ==> response == ErrorResponse(InternalError)
    ensures request.Some? && fetch(request.value).Reply? && fetch(request.value).statusCode == OkStatus
      && fetch(request.value).payload.Some?
      ==> response == Ok(SearchResult(SuccessStatus, Refined(VideosOf(fetch(request.value).payload.value))))
    ensures response.Ok? ==> response.result.status == SuccessStatus
    ensures response.ErrorResponse? ==> response.status != OkStatus
  {
    scouted, request := false, None;
    if body.None? {
      response := ErrorResponse(StatusOf(Unexpected));
      return;
    }
    var checked := Validate(body.value);
    match checked {
      case Failure(f) =>
        response := ErrorResponse(StatusOf(f));
      case Success(params) =>
        var sent, outcome;
        scouted, sent, outcome := SearchVideos(params, scout, fetch);
        request := Some(sent);
        match outcome {
          case Success(result) => response := Ok(result);
          case Failure(f) => response := ErrorResponse(StatusOf(f));
        }
    }
  }

  /** With `randomize` absent the request falls back to its default, false, and
      the search asks for the first page whatever the scout would report. */
  lemma DefaultRequestFetchesFirstPage(body: RequestBody, scout: ScoutOutcome, q: PexelsQuery)
    requires Validate(body).Success? && body.randomize.None?
    requires RequestFor(q, Validate(body).value, scout)
    ensures q.page == 1 && q.perPage == (if body.count.None? then DefaultCount else body.count.value)
  {
  }
}
