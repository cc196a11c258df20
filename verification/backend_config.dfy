/**
  The browser helper of backend/config.js: the base URL chosen from the page's location,
  the request built by `fetchApi`, and the fallback values it returns when a request fails.
  The page location and the outcome of `fetch` are inputs.
 */
module BackendConfig {
  import opened Js

  /** The parts of `window.location` the helper reads. */
  datatype Location = Location(hostname: string, origin: string)

  const LocalBaseUrl := "http://localhost:3000"

  const Users := "/api/users"
  const Diagnoses := "/api/diagnoses"
  const Recommendations := "/api/recommendations"
  const Symptoms := "/api/symptoms"
  const Stats := "/api/stats"
  const TestDb := "/test-db"
  const Health := "/health"
  const Login := "/admin/login"
  const ProcessDiagnosis := "/api/diagnosis/process"

  /** The endpoints whose failures fall back to an empty list. */
  const ListEndpoints := [Users, Diagnoses, Symptoms, Recommendations]

  const Json := Str("application/json")

  /** The headers `fetchApi` sends unless the caller passes its own. */
  const DefaultHeaders := map["Content-Type" := Json, "Accept" := Json]

  /** The value returned for the statistics endpoint when its request fails. */
  const ZeroStats := Obj(map[
    "total_users" := Num(0.0),
    "total_diagnoses" := Num(0.0),
    "total_symptoms" := Num(0.0),
    "total_recommendations" := Num(0.0)])

  predicate IsLocalhost(hostname: string) {
    hostname == "localhost" || hostname == "127.0.0.1"
  }

  /** `BASE_URL`: the development server on a local host, the page origin anywhere else. */
  function BaseUrl(loc: Location): (base: string)
    ensures IsLocalhost(loc.hostname) ==> base == LocalBaseUrl
    ensures !IsLocalhost(loc.hostname) ==> base == loc.origin
  {
    if IsLocalhost(loc.hostname) then LocalBaseUrl else loc.origin
  }

  /** `BASE_URL + endpoint`: the base followed directly by the endpoint, with no separator added
      and nothing normalised. */
  function RequestUrl(loc: Location, endpoint: string): (url: string)
    ensures |url| == |BaseUrl(loc)| + |endpoint|
    ensures url[..|BaseUrl(loc)|] == BaseUrl(loc)
    ensures url[|BaseUrl(loc)|..] == endpoint
  {
    BaseUrl(loc) + endpoint
  }

  /** `{ ...defaultOptions, ...options }`: a shallow merge in which the caller wins, so a caller's
      `headers` replaces both default headers rather than adding to them. */
  function MergeOptions(options: map<string, Value>): (merged: map<string, Value>)
    ensures merged.Keys == options.Keys + {"headers"}
    ensures forall k :: k in options ==> merged[k] == options[k]
    ensures "headers" !in options ==> merged["headers"] == Obj(DefaultHeaders)
  {
    Spread(map["headers" := Obj(DefaultHeaders)], options)
  }

  /** The catch block: fixed values for the dashboard endpoints, the error rethrown for any other. */
  function Fallback(endpoint: string, error: string): (r: ApiResult)
    ensures endpoint == Stats ==> r == Returned(ZeroStats)
    ensures endpoint in ListEndpoints ==> r == Returned(Arr([]))
    ensures r.Threw? <==> endpoint != Stats && endpoint !in ListEndpoints
    ensures r.Threw? ==> r.error == error
  {
    if endpoint == Stats then Returned(ZeroStats)
    else if endpoint in ListEndpoints then Returned(Arr([]))
    else Threw(error)
  }

  /** How `fetchApi` settles for a given outcome of its request: the parsed body on success; a
      response whose `ok` is false becomes the error `HTTP <status>: <body text>` and, like a
      rejected request, goes to the fallback. */
  function Settle(endpoint: string, outcome: FetchOutcome): (r: ApiResult)
    ensures outcome.Ok? ==> r == Returned(outcome.body)
    ensures !outcome.Ok? ==> r == Fallback(endpoint, ErrorMessage(outcome))
  {
    match outcome
    case Ok(body) => Returned(body)
    case NotOk(status, bodyText, _) => Fallback(endpoint, HttpError(status, bodyText))
    case Fail(message) => Fallback(endpoint, message)
  }

  /** One call of `fetchApi`. */
  function FetchApi(loc: Location, endpoint: string, options: map<string, Value>, outcome: FetchOutcome): (e: Exchange)
    ensures |e.url| == |BaseUrl(loc)| + |endpoint|
    ensures e.url[..|BaseUrl(loc)|] == BaseUrl(loc) && e.url[|BaseUrl(loc)|..] == endpoint
    ensures e.init.Keys == options.Keys + {"headers"}
    ensures e.result.Threw? ==> !outcome.Ok? && endpoint != Stats && endpoint !in ListEndpoints
  {
    Exchange(RequestUrl(loc, endpoint), MergeOptions(options), Settle(endpoint, outcome))
  }

  /** On success the parsed body comes back unchanged, whatever the endpoint. */
  lemma SuccessReturnsBody(loc: Location, endpoint: string, options: map<string, Value>, body: Value)
    ensures FetchApi(loc, endpoint, options, Ok(body)).result == Returned(body)
  {
  }

  /** A response whose `ok` is false is handled exactly like a rejected request whose message is
      `HTTP <status>: <body text>`. */
  lemma NotOkJoinsFailurePath(endpoint: string, status: nat, bodyText: string, statusText: string)
    ensures Settle(endpoint, NotOk(status, bodyText, statusText)) == Settle(endpoint, Fail(HttpError(status, bodyText)))
  {
  }

  /** The message of the error a failed outcome raises inside the try block. */
  function ErrorMessage(outcome: FetchOutcome): string
    requires !outcome.Ok?
  {
    if outcome.NotOk? then HttpError(outcome.status, outcome.bodyText) else outcome.message
  }

  /** For a failed request the call settles by endpoint alone: zero counters for the statistics,
      an empty list for the four list endpoints, and the error rethrown for every other
      endpoint; the dashboard endpoints never throw. */
  lemma FailureByEndpoint(loc: Location, endpoint: string, options: map<string, Value>, outcome: FetchOutcome)
    requires !outcome.Ok?
    ensures var r := FetchApi(loc, endpoint, options, outcome).result;
      && (endpoint == Stats ==> r == Returned(ZeroStats))
      && (endpoint in ListEndpoints ==> r == Returned(Arr([])))
      && (endpoint != Stats && endpoint !in ListEndpoints ==> r == Threw(ErrorMessage(outcome)))
  {
  }

  /** The statistics fallback has exactly four counters, all zero. */
  lemma ZeroStatsCounters()
    ensures ZeroStats.fields.Keys == {"total_users", "total_diagnoses", "total_symptoms", "total_recommendations"}
    ensures forall k :: k in ZeroStats.fields ==> ZeroStats.fields[k] == Num(0.0)
  {
  }

  /** The endpoints that are not dashboard reads, and a list endpoint with a suffix, rethrow:
      the membership test is exact string equality. */
  lemma OtherEndpointsRethrow(outcome: FetchOutcome)
    requires !outcome.Ok?
    ensures Settle(Login, outcome).Threw? && Settle(ProcessDiagnosis, outcome).Threw?
    ensures Settle(Health, outcome).Threw? && Settle(TestDb, outcome).Threw?
    ensures Settle("/api/users/5", outcome).Threw?
  {
    assert Login[2] == 'd';
  }

  /** A caller's `headers` object is sent as it is: the defaults, `Accept` included, are dropped. */
  lemma CallerHeadersReplaceDefaults(options: map<string, Value>, h: map<string, Value>)
    requires "headers" in options && options["headers"] == Obj(h) && "Accept" !in h
    ensures MergeOptions(options)["headers"] == Obj(h)
    ensures "Accept" !in MergeOptions(options)["headers"].fields
  {
  }
}
