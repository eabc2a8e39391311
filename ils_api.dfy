/**
 * The request and response handling shared by API-based ILS drivers: where
 * a request goes and how long it may take, where its parameters are put,
 * what is logged about it, which HTTP statuses become which exceptions,
 * and the configuration guard that demands a base URL.
 */
module IlsApi {
  import opened Wrappers

  /** Seconds an ILS API request may take. */
  const RequestTimeout: nat := 120
  const Get: string := "GET"
  const ServerErrorMessage: string := "500: Internal Server Error"
  const MissingBaseUrlMessage: string := "API Driver configured without base url."

  /** A configuration: section name to key to value. */
  type Config = map<string, map<string, string>>

  datatype Header = Header(name: string, value: string)

  /** Request parameters: an array of fields, or a raw string body. */
  datatype Params = Fields(fields: map<string, string>) | Text(text: string)

  /** What the HTTP client sends. */
  datatype HttpRequest = HttpRequest(
    uri: string, verb: string, timeout: nat, headers: seq<Header>,
    query: map<string, string>, form: map<string, string>, content: Option<string>)

  datatype HttpResponse = HttpResponse(statusCode: int, body: string)

  /** The exceptions a driver raises, each with its message. */
  datatype ApiError =
    | BadRequest(message: string)
    | Forbidden(message: string)
    | RecordMissing(message: string)
    | IlsError(message: string)
    | BadConfig(message: string)

  /** One debug log entry: the parameters and headers are logged for GET requests only. */
  datatype DebugEntry = DebugEntry(verb: string, path: string, params: Params, headers: seq<Header>)

  predicate HasBaseUrl(config: Config) {
    "API" in config && "base_url" in config["API"]
  }

  /** The configured base URL; an absent one reads as the empty string. */
  function BaseUrl(config: Config): string {
    if HasBaseUrl(config) then config["API"]["base_url"] else ""
  }

  /** The default request correction: headers and parameters pass unchanged. */
  function PreRequest(headers: seq<Header>, params: Params): (r: (seq<Header>, Params))
    ensures r.0 == headers && r.1 == params
  {
    (headers, params)
  }

  /** GET parameters must be an array of fields. */
  predicate Placeable(verb: string, params: Params) {
    verb == Get ==> params.Fields?
  }

  /** The request `makeRequest` hands to the transport. */
  function ExpectedRequest(baseUrl: string, verb: string, path: string, params: Params, headers: seq<Header>)
    : HttpRequest
    requires Placeable(verb, params)
  {
    var (_, p) := PreRequest(headers, params);
    var bare := HttpRequest(baseUrl + path, verb, RequestTimeout, headers, map[], map[], None);
    if verb == Get then bare.(query := p.fields)
    else match p
      case Text(t) => bare.(content := Some(t))
      case Fields(f) => bare.(form := f)
  }

  /** The parameters a request carries, read back from where they were put. */
  function SentParams(request: HttpRequest): Params {
    if request.verb == Get then Fields(request.query)
    else match request.content
      case Some(t) => Text(t)
      case None => Fields(request.form)
  }

  /** The debug entry `debugRequest` writes. */
  function DebugEntryFor(verb: string, path: string, params: Params, headers: seq<Header>): DebugEntry {
    if verb == Get then DebugEntry(verb, path, params, headers)
    else DebugEntry(verb, path, Fields(map[]), [])
  }

  /** The status switch: some statuses become exceptions, every other response is returned. */
  function CheckResponse(response: HttpResponse): Result<HttpResponse, ApiError> {
    match response.statusCode
    case 400 => Failure(BadRequest(response.body))
    case 401 => Failure(Forbidden(response.body))
    case 403 => Failure(Forbidden(response.body))
    case 404 => Failure(RecordMissing(response.body))
    case 500 => Failure(IlsError(ServerErrorMessage))
    case _ => Success(response)
  }

  /** The outcome of `setConfig`. */
  function ConfigOutcome(config: Config): Outcome<ApiError> {
    if HasBaseUrl(config) then Pass else Fail(BadConfig(MissingBaseUrlMessage))
  }

  /**
   * Status 400 is a bad request, 401 and 403 are forbidden and 404 a missing
   * record, each carrying the response body; 500 is an ILS error with a fixed
   * message; the response is returned unchanged exactly for every other status.
   */
  lemma StatusTable(response: HttpResponse)
    ensures var r := CheckResponse(response);
      var s := response.statusCode;
      && (r.Success? <==> s !in {400, 401, 403, 404, 500})
      && (r.Success? ==> r.value == response)
      && (s == 400 <==> r == Failure(BadRequest(response.body)))
      && (s == 401 || s == 403 <==> r == Failure(Forbidden(response.body)))
      && (s == 404 <==> r == Failure(RecordMissing(response.body)))
      && (s == 500 <==> r == Failure(IlsError(ServerErrorMessage)))
  {
  }

  /**
   * A request goes to the base URL followed by the path, with the caller's
   * method and headers and a 120-second timeout; its parameters are put in
   * exactly one place (the query for GET, the raw body for a string, the
   * form otherwise) and can be read back unchanged from there.
   */
  lemma PlacedParams(baseUrl: string, verb: string, path: string, params: Params, headers: seq<Header>)
    requires Placeable(verb, params)
    ensures var req := ExpectedRequest(baseUrl, verb, path, params, headers);
      && req.uri == baseUrl + path && req.uri[|baseUrl|..] == path
      && req.verb == verb && req.timeout == RequestTimeout && req.headers == headers
      && SentParams(req) == params
      && (verb == Get ==> req.form == map[] && req.content == None && req.query == params.fields)
      && (verb != Get && params.Text? ==> req.query == map[] && req.form == map[] && req.content == Some(params.text))
      && (verb != Get && params.Fields? ==> req.query == map[] && req.content == None && req.form == params.fields)
  {
    var req := ExpectedRequest(baseUrl, verb, path, params, headers);
    assert req.uri[|baseUrl|..] == path;
  }

  /**
   * Only GET requests have their parameters and headers logged, and then
   * exactly the parameters and headers that are sent.
   */
  lemma DebugLogsGetOnly(baseUrl: string, verb: string, path: string, params: Params, headers: seq<Header>)
    requires Placeable(verb, params)
    ensures var entry := DebugEntryFor(verb, path, params, headers);
      var req := ExpectedRequest(baseUrl, verb, path, params, headers);
      && entry.verb == verb && entry.path == path
      && (verb == Get ==> entry.params == SentParams(req) && entry.headers == req.headers)
      && (verb != Get ==> entry.params == Fields(map[]) && entry.headers == [])
  {
    PlacedParams(baseUrl, verb, path, params, headers);
  }

  /** `setConfig` fails exactly when no base URL is configured, and then with `BadConfig`. */
  lemma ConfigGuard(config: Config)
    ensures ConfigOutcome(config).Pass? <==> HasBaseUrl(config)
    ensures ConfigOutcome(config).Fail? ==> ConfigOutcome(config).error == BadConfig(MissingBaseUrlMessage)
    ensures HasBaseUrl(config) ==> BaseUrl(config) == config["API"]["base_url"]
  {
  }

  /** The HTTP client of one request, built up step by step before it is sent. */
  class HttpClient {
    var uri: string
    var verb: string
    var timeout: nat
    var headers: seq<Header>
    var query: map<string, string>
    var form: map<string, string>
    var content: Option<string>

    constructor(uri: string, verb: string, timeout: nat)
      ensures this.uri == uri && this.verb == verb && this.timeout == timeout
      ensures headers == [] && query == map[] && form == map[] && content == None
    {
      this.uri := uri;
      this.verb := verb;
      this.timeout := timeout;
      headers := [];
      query := map[];
      form := map[];
      content := None;
    }

    /** The request as it stands. */
    function Request(): HttpRequest
      reads this
    {
      HttpRequest(uri, verb, timeout, headers, query, form, content)
    }

    method AddHeaders(extra: seq<Header>)
      modifies this
      ensures Request() == old(Request()).(headers := old(headers) + extra)
    {
      headers := headers + extra;
    }

    method SetParameterGet(fields: map<string, string>)
      modifies this
      ensures Request() == old(Request()).(query := fields)
    {
      query := fields;
    }

    method SetParameterPost(fields: map<string, string>)
      modifies this
      ensures Request() == old(Request()).(form := fields)
    {
      form := fields;
    }

    method SetContent(text: string)
      modifies this
      ensures Request() == old(Request()).(content := Some(text))
    {
      content := Some(text);
    }
  }

  /** A driver talking to an ILS over its HTTP API. */
  class ApiDriver {
    var config: Config
    /** Whether a logger is attached. */
    var hasLogger: bool
    /** What has been logged at debug level. */
    var debugLog: seq<DebugEntry>

    constructor(hasLogger: bool)
      ensures config == map[] && this.hasLogger == hasLogger && debugLog == []
    {
      config := map[];
      this.hasLogger := hasLogger;
      debugLog := [];
    }

    /** Stores the configuration, then demands a base URL in its `API` section. */
    method SetConfig(newConfig: Config) returns (r: Outcome<ApiError>)
      modifies this
      ensures config == newConfig && hasLogger == old(hasLogger) && debugLog == old(debugLog)
      ensures r == ConfigOutcome(newConfig)
    {
      config := newConfig;
      if !HasBaseUrl(newConfig) {
        return Fail(BadConfig(MissingBaseUrlMessage));
      }
      return Pass;
    }

    method DebugRequest(verb: string, path: string, params: Params, headers: seq<Header>)
      modifies this
      ensures debugLog == old(debugLog) + [DebugEntryFor(verb, path, params, headers)]
      ensures config == old(config) && hasLogger == old(hasLogger)
    {
      var logParams := Fields(map[]);
      var logHeaders := [];
      if verb == Get {
        logParams := params;
        logHeaders := headers;
      }
      debugLog := debugLog + [DebugEntry(verb, path, logParams, logHeaders)];
    }

    /**
     * Builds the request, logs it when a logger is attached, sends it through
     * `send` and classifies the response.
     */
    method MakeRequest(send: HttpRequest -> HttpResponse, verb: string := Get, path: string := "/",
                       params: Params := Fields(map[]), headers: seq<Header> := [])
      returns (r: Result<HttpResponse, ApiError>)
      requires Placeable(verb, params)
      modifies this
      ensures r == CheckResponse(send(ExpectedRequest(BaseUrl(config), verb, path, params, headers)))
      ensures config == old(config) && hasLogger == old(hasLogger)
      ensures debugLog == old(debugLog) + if hasLogger then [DebugEntryFor(verb, path, params, headers)] else []
    {
      var client := new HttpClient(BaseUrl(config) + path, verb, RequestTimeout);
      client.AddHeaders(headers);
      assert client.headers == headers;
      var (reqHeaders, reqParams) := PreRequest(client.headers, params);
      if hasLogger {
        DebugRequest(verb, path, reqParams, reqHeaders);
      }
      if verb == Get {
        client.SetParameterGet(reqParams.fields);
      } else if reqParams.Text? {
        client.SetContent(reqParams.text);
      } else {
        client.SetParameterPost(reqParams.fields);
      }
      assert client.Request() == ExpectedRequest(BaseUrl(config), verb, path, params, headers);
      var response := send(client.Request());
      match response.statusCode
      case 400 => r := Failure(BadRequest(response.body));
      case 401 => r := Failure(Forbidden(response.body));
      case 403 => r := Failure(Forbidden(response.body));
      case 404 => r := Failure(RecordMissing(response.body));
      case 500 => r := Failure(IlsError(ServerErrorMessage));
      case _ => r := Success(response);
    }
  }
}
