/** The generic webhook adapter: constructor, request headers, the 2xx rule
    and counter outcome. */
module Webhook {
  import opened Wrappers
  import opened Alerts
  import opened Config
  import opened Transport
  import Slack
  import Metrics

  datatype WebhookProcessor = WebhookProcessor(url: string, httpMethod: string, headers: map<string, string>)

  /** The request `sendToWebhook` issues; its body is the alert itself
      (JSON encoding is not modelled). */
  datatype WebhookRequest = WebhookRequest(
    httpMethod: string, url: string, headers: map<string, string>, body: Alert)

  const DefaultMethod := "POST"
  const ContentType := "Content-Type"
  const JsonMediaType := "application/json"

  /** The string-valued entries of a header map; other values are dropped. */
  function StringEntries(m: CfgMap): (h: map<string, string>)
    ensures forall k :: k in h <==> k in m && m[k].Str?
    ensures forall k :: k in h ==> h[k] == m[k].s
  {
    map k | k in m && m[k].Str? :: m[k].s
  }

  /** The configured headers: only a map-valued "headers" contributes. */
  function ConfiguredHeaders(cfg: CfgMap): (h: map<string, string>)
    ensures !("headers" in cfg && cfg["headers"].Map?) ==> h == map[]
    ensures "headers" in cfg && cfg["headers"].Map? ==> h == StringEntries(cfg["headers"].entries)
  {
    if "headers" in cfg && cfg["headers"].Map? then StringEntries(cfg["headers"].entries) else map[]
  }

  /** What `NewWebhookProcessor` returns: an error exactly when url is not a
      non-empty string; method defaults to POST when absent or not a string. */
  function WebhookConfig(cfg: CfgMap): (r: Result<WebhookProcessor>)
    ensures r.Failure? <==> !HasNonEmptyString(cfg, "url")
    ensures r.Failure? ==> r.error == "webhook url is required"
    ensures r.Success? ==> r.value.url == cfg["url"].s
    ensures r.Success? ==> r.value.httpMethod == Slack.GetStringFromConfig(cfg, "method", DefaultMethod)
    ensures r.Success? ==> r.value.headers == ConfiguredHeaders(cfg)
  {
    if HasNonEmptyString(cfg, "url")
    then Success(WebhookProcessor(cfg["url"].s, Slack.GetStringFromConfig(cfg, "method", DefaultMethod), ConfiguredHeaders(cfg)))
    else Failure("webhook url is required")
  }

  /** The loop of `NewWebhookProcessor` over a header map. */
  method CollectHeaders(m: CfgMap) returns (headers: map<string, string>)
    ensures headers == StringEntries(m)
  {
    headers := map[];
    var rest := m.Keys;
    while rest != {}
      invariant rest <= m.Keys
      invariant forall k :: k in headers <==> k in m && k !in rest && m[k].Str?
      invariant forall k :: k in headers ==> headers[k] == m[k].s
      decreases rest
    {
      var k :| k in rest;
      if m[k].Str? {
        headers := headers[k := m[k].s];
      }
      rest := rest - {k};
    }
    assert headers.Keys == StringEntries(m).Keys;
  }

  /** `NewWebhookProcessor`. */
  method NewWebhookProcessor(cfg: CfgMap) returns (r: Result<WebhookProcessor>)
    ensures r == WebhookConfig(cfg)
  {
    var url := StringAt(cfg, "url");
    if url.None? || url.value == "" {
      return Failure("webhook url is required");
    }
    var httpMethod := Slack.GetStringFromConfig(cfg, "method", DefaultMethod);
    var headers: map<string, string> := map[];
    if "headers" in cfg && cfg["headers"].Map? {
      headers := CollectHeaders(cfg["headers"].entries);
    }
    r := Success(WebhookProcessor(url.value, httpMethod, headers));
  }

  /** The headers `sendToWebhook` sets: Content-Type first, then every
      configured header, so configuration can override Content-Type. */
  method RequestHeaders(wp: WebhookProcessor) returns (h: map<string, string>)
    ensures h.Keys == wp.headers.Keys + {ContentType}
    ensures forall k :: k in wp.headers ==> h[k] == wp.headers[k]
    ensures ContentType !in wp.headers ==> h[ContentType] == JsonMediaType
  {
    h := map[ContentType := JsonMediaType];
    var rest := wp.headers.Keys;
    while rest != {}
      invariant rest <= wp.headers.Keys
      invariant h.Keys == (wp.headers.Keys - rest) + {ContentType}
      invariant forall k :: k in wp.headers && k !in rest ==> h[k] == wp.headers[k]
      invariant ContentType !in wp.headers - rest ==> h[ContentType] == JsonMediaType
      decreases rest
    {
      var k :| k in rest;
      h := h[k := wp.headers[k]];
      rest := rest - {k};
    }
  }

  /** Any 2xx status is success. */
  predicate IsSuccessStatus(code: int)
  {
    200 <= code < 300
  }

  function Outcome(reply: Reply): (o: Outcome)
    ensures o == Delivered <==> reply.Response? && 200 <= reply.code < 300
    ensures o == Fault <==> reply == Panic
    ensures o != Logged
  {
    match reply
    case Response(code) => if IsSuccessStatus(code) then Delivered else TxError
    case SendError => TxError
    case Panic => Fault
  }

  /** `Process`: one request, one attempt whatever the answer (no retry), one counter. */
  method Process(wp: WebhookProcessor, alert: Alert, reply: Reply, m: Metrics.Counters)
    returns (request: WebhookRequest, o: Outcome)
    modifies m
    ensures request.httpMethod == wp.httpMethod && request.url == wp.url && request.body == alert
    ensures request.headers.Keys == wp.headers.Keys + {ContentType}
    ensures forall k :: k in wp.headers ==> request.headers[k] == wp.headers[k]
    ensures ContentType !in wp.headers ==> request.headers[ContentType] == JsonMediaType
    ensures o == Outcome(reply)
    ensures m.received == old(m.received)
    ensures m.processed == old(m.processed) + (if o == Delivered then 1 else 0)
    ensures m.errors == old(m.errors) + (if o == TxError then 1 else 0)
  {
    var headers := RequestHeaders(wp);
    request := WebhookRequest(wp.httpMethod, wp.url, headers, alert);
    o := Outcome(reply);
    if o == Delivered {
      m.IncProcessed();
    } else if o == TxError {
      m.IncErrors();
    }
  }
}
