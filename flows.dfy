/**
 * The forwarder: looks a Flows region tag up in the endpoint table and, when
 * the table gives a usable URL, POSTs the payload there once, reducing the
 * outcome to a boolean. The POST itself is an oracle, `post`, that answers a
 * request with a response.
 */
module Flows {
  import opened Wrappers
  import opened Json
  import opened Routing

  /** The endpoint table deployed with the function; CA and EMEA hold a placeholder. */
  const FlowsApiEndpoints: map<string, string> := map[
    "US" := "https://api-us1cqa.ficoflows-cqa.net/solutions/483-test/cases",
    "CA" := "https://api-",
    "EMEA" := "https://api-"
  ]

  const ContentType: string := "application/json"

  /** Seconds `requests.post` waits before giving up. */
  const TimeoutSeconds: nat := 5

  /**
   * Process-wide configuration: the API-key header's name and value (read from
   * the environment at cold start; the value may be missing) and the endpoint table.
   */
  datatype Config = Config(apiKeyName: string, apiKeyValue: Option<string>, endpoints: map<string, string>)

  /** One HTTP POST as `requests.post` is asked to make it; the body is the JSON payload. */
  datatype Request = Request(url: string, headers: map<string, Option<string>>, body: Value, timeout: nat)

  /** What the network gives back: a status line, or a `RequestException` (timeout, DNS, connection, TLS). */
  datatype Response = Answered(statusCode: int) | RequestFailed

  /**
   * `FLOWS_API_ENDPOINTS.get(region)` followed by `if not api_url`: the URL to
   * POST to, or nothing when the tag is missing from the table or maps to "".
   */
  function Endpoint(endpoints: map<string, string>, region: string): (url: Option<string>)
    ensures url.Some? ==> region in endpoints && url.value == endpoints[region] && url.value != ""
    ensures url.None? ==> region !in endpoints || endpoints[region] == ""
  {
    if region in endpoints && endpoints[region] != "" then Some(endpoints[region]) else None
  }

  /** The headers dict: content type, then the API key (a key named "Content-Type" overrides it). */
  function Headers(cfg: Config): (h: map<string, Option<string>>)
    ensures h.Keys == {"Content-Type", cfg.apiKeyName}
    ensures h[cfg.apiKeyName] == cfg.apiKeyValue
    ensures cfg.apiKeyName != "Content-Type" ==> h["Content-Type"] == Some(ContentType)
  {
    map["Content-Type" := Some(ContentType)][cfg.apiKeyName := cfg.apiKeyValue]
  }

  /** `raise_for_status` raises for 4xx and 5xx only; a `RequestException` is a failure too. */
  predicate Succeeded(response: Response)
  {
    response.Answered? && !(400 <= response.statusCode < 600)
  }

  /** The request `send_to_flows` makes for this tag and payload, if it makes one. */
  function Delivery(cfg: Config, region: string, payload: Value): (sent: Option<Request>)
    ensures sent.None? <==> Endpoint(cfg.endpoints, region).None?
    ensures sent.Some? ==> sent.value.url == Endpoint(cfg.endpoints, region).value
    ensures sent.Some? ==> sent.value.body == payload && sent.value.timeout == TimeoutSeconds
    ensures sent.Some? ==> sent.value.headers == Headers(cfg)
  {
    match Endpoint(cfg.endpoints, region)
    case None => None
    case Some(url) => Some(Request(url, Headers(cfg), payload, TimeoutSeconds))
  }

  /**
   * `send_to_flows(region, payload)`: refuses (False, no POST) when the table has
   * no usable URL for `region`; otherwise POSTs once and returns True exactly when
   * the POST completed with a status below 400 or from 600 up. No failure escapes.
   * `sent` is the request put on the wire, if any.
   */
  method SendToFlows(cfg: Config, region: string, payload: Value, post: Request -> Response)
    returns (ok: bool, ghost sent: Option<Request>)
    ensures sent == Delivery(cfg, region, payload)
    ensures Endpoint(cfg.endpoints, region).None? ==> !ok && sent.None?
    ensures ok <==> Delivery(cfg, region, payload).Some? && Succeeded(post(Delivery(cfg, region, payload).value))
  {
    var url := Endpoint(cfg.endpoints, region);
    if url.None? {
      return false, None;
    }
    var request := Request(url.value, Headers(cfg), payload, TimeoutSeconds);
    var response := post(request);
    ok := Succeeded(response);
    sent := Some(request);
  }

  /**
   * Every tag the resolver can return has a non-empty URL in the deployed
   * table (CA and EMEA only the placeholder "https://api-", which is still
   * non-empty), so the "no API endpoint" refusal is unreachable from the handler.
   */
  lemma EveryTagHasAnEndpoint(tag: string)
    requires tag in RegionTags
    ensures Endpoint(FlowsApiEndpoints, tag).Some?
    ensures tag != "US" ==> Endpoint(FlowsApiEndpoints, tag) == Some("https://api-")
  {
  }

  /** A tag the deployed table does not list is refused with no request. */
  lemma UnlistedTagIsRefused(cfg: Config, tag: string, payload: Value)
    requires cfg.endpoints == FlowsApiEndpoints
    requires tag !in RegionTags
    ensures Delivery(cfg, tag, payload).None?
  {
  }

  /** Only a completed exchange with a status outside 400..599 succeeds; every 2xx does. */
  lemma ResponseClassification(code: int)
    ensures Succeeded(Answered(code)) <==> code < 400 || 600 <= code
    ensures 200 <= code < 300 ==> Succeeded(Answered(code))
    ensures !Succeeded(RequestFailed)
  {
  }
}
