/**
  The browser helper of frontend/config.js: URLs on the page origin, the options passed to
  `fetch`, and the rule that every failure is rethrown. The page origin and the outcome of
  `fetch` are inputs.
 */
module FrontendConfig {
  import opened Js
  import BackendConfig

  const JsonContentType := map["Content-Type" := Str("application/json")]

  /** `getUrl(endpoint)`: `BASE_URL` (the page origin) followed directly by the endpoint. */
  function GetUrl(origin: string, endpoint: string): (url: string)
    ensures |url| == |origin| + |endpoint|
    ensures url[..|origin|] == origin && url[|origin|..] == endpoint
  {
    origin + endpoint
  }

  /** `defaultOptions`: a `headers` object holding the JSON content type and whatever
      `...options.headers` spreads over it. */
  function DefaultOptions(options: map<string, Value>): (d: map<string, Value>)
    ensures d.Keys == {"headers"} && d["headers"].Obj?
    ensures "headers" !in options ==> d["headers"] == Obj(JsonContentType)
    ensures "headers" in options && options["headers"].Obj? ==>
      d["headers"].fields.Keys == options["headers"].fields.Keys + {"Content-Type"}
      && forall k :: k in options["headers"].fields ==> d["headers"].fields[k] == options["headers"].fields[k]
    ensures "headers" in options && options["headers"].Obj? && "Content-Type" !in options["headers"].fields ==>
      d["headers"].fields["Content-Type"] == Str("application/json")
    ensures "headers" in options && !options["headers"].Obj? ==> d["headers"] == Obj(JsonContentType)
  {
    var callerHeaders := if "headers" in options then SpreadFields(options["headers"]) else map[];
    map["headers" := Obj(Spread(JsonContentType, callerHeaders))]
  }

  /** `{ ...defaultOptions, ...options }`, the options passed to `fetch`. A caller who passes
      `headers` has them sent exactly as given, since the second spread overwrites the merged
      headers; a caller who passes none gets exactly the JSON content type. Every other key
      passes through unchanged. */
  function EffectiveInit(options: map<string, Value>): (init: map<string, Value>)
    ensures init.Keys == options.Keys + {"headers"}
    ensures "headers" in options ==> init["headers"] == options["headers"]
    ensures "headers" !in options ==> init["headers"] == Obj(JsonContentType)
    ensures forall k :: k in options && k != "headers" ==> init[k] == options[k]
  {
    Spread(DefaultOptions(options), options)
  }

  /** How `fetchApi` settles: the parsed body on success; otherwise it throws, with
      `HTTP <status>: <status text>` for a response whose `ok` is false and the rejection's own
      message for a failed request. */
  function Settle(outcome: FetchOutcome): (r: ApiResult)
    ensures r.Returned? <==> outcome.Ok?
    ensures outcome.Ok? ==> r == Returned(outcome.body)
    ensures outcome.Fail? ==> r == Threw(outcome.message)
    ensures outcome.NotOk? ==> r == Threw(HttpError(outcome.status, outcome.statusText))
  {
    match outcome
    case Ok(body) => Returned(body)
    case NotOk(status, _, statusText) => Threw(HttpError(status, statusText))
    case Fail(message) => Threw(message)
  }

  /** One call of `fetchApi`: the URL and options passed to `fetch`, and how the call settles. */
  function FetchApi(origin: string, endpoint: string, options: map<string, Value>, outcome: FetchOutcome): (e: Exchange)
    ensures |e.url| == |origin| + |endpoint|
    ensures e.url[..|origin|] == origin && e.url[|origin|..] == endpoint
    ensures e.init.Keys == options.Keys + {"headers"}
    ensures e.result.Returned? <==> outcome.Ok?
  {
    Exchange(GetUrl(origin, endpoint), EffectiveInit(options), Settle(outcome))
  }

  /** The call returns a value only for a successful request, and then exactly its parsed body:
      there is no default value for any endpoint. */
  lemma ReturnsOnlyParsedBody(origin: string, endpoint: string, options: map<string, Value>, outcome: FetchOutcome, v: Value)
    ensures FetchApi(origin, endpoint, options, outcome).result == Returned(v) <==> outcome == Ok(v)
  {
  }

  /** A response whose `ok` is false always throws, with its status and status text. */
  lemma NotOkThrows(status: nat, bodyText: string, statusText: string)
    ensures Settle(NotOk(status, bodyText, statusText)) == Threw(HttpError(status, statusText))
  {
  }

  /** Caller headers without a content type are sent without one: the JSON default is lost. */
  lemma CallerHeadersDropContentType(options: map<string, Value>, h: map<string, Value>)
    requires "headers" in options && options["headers"] == Obj(h) && "Content-Type" !in h
    ensures "Content-Type" !in EffectiveInit(options)["headers"].fields
  {
  }

  /** How the two helpers settle the same call. They agree on success and on a rejected request
      to an endpoint outside the dashboard. On a failed request to a dashboard endpoint the backend
      helper returns its fallback while this one throws. On a response that is not ok, outside
      the dashboard, both throw, but the backend puts the body text after the status and this one
      the status text, so the two errors agree exactly when those texts do. */
  lemma HelpersCompared(endpoint: string, outcome: FetchOutcome)
    ensures outcome.Ok? ==> Settle(outcome) == BackendConfig.Settle(endpoint, outcome)
    ensures !outcome.Ok? && (endpoint == BackendConfig.Stats || endpoint in BackendConfig.ListEndpoints) ==>
      Settle(outcome).Threw? && BackendConfig.Settle(endpoint, outcome).Returned?
    ensures outcome.Fail? && endpoint != BackendConfig.Stats && endpoint !in BackendConfig.ListEndpoints ==>
      Settle(outcome) == BackendConfig.Settle(endpoint, outcome)
    ensures outcome.NotOk? && endpoint != BackendConfig.Stats && endpoint !in BackendConfig.ListEndpoints ==>
      Settle(outcome) == Threw(HttpError(outcome.status, outcome.statusText))
      && BackendConfig.Settle(endpoint, outcome) == Threw(HttpError(outcome.status, outcome.bodyText))
      && (Settle(outcome) == BackendConfig.Settle(endpoint, outcome) <==> outcome.statusText == outcome.bodyText)
  {
    if outcome.NotOk? && endpoint != BackendConfig.Stats && endpoint !in BackendConfig.ListEndpoints {
      var a := HttpError(outcome.status, outcome.statusText);
      var b := HttpError(outcome.status, outcome.bodyText);
      if a == b {
        assert outcome.statusText == a[|a| - |outcome.statusText|..] == b[|b| - |outcome.bodyText|..] == outcome.bodyText;
      }
    }
  }
}
