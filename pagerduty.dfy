/** The PagerDuty Events API v2 adapter: constructor, event layout,
    acceptance rule and counter outcome. */
module PagerDuty {
  import opened Wrappers
  import opened Alerts
  import opened Config
  import opened Transport
  import Slack
  import Metrics

  datatype PagerDutyProcessor = PagerDutyProcessor(integrationKey: string, apiEndpoint: string)

  datatype PagerDutyLink = PagerDutyLink(href: string, text: string)

  /** The payload; its timestamp (the clock) and the never-set component,
      group and class fields are not modelled. */
  datatype PagerDutyPayload = PagerDutyPayload(
    summary: string, source: string, severity: string, customDetails: map<string, string>)

  datatype PagerDutyEvent = PagerDutyEvent(
    routingKey: string, eventAction: string, dedupKey: string,
    payload: PagerDutyPayload, links: seq<PagerDutyLink>)

  const DefaultEndpoint := "https://events.pagerduty.com/v2/enqueue"
  const AnnotationPrefix := "annotation_"
  const LinkText := "View in Prometheus"

  /** `NewPagerDutyProcessor`: fails exactly when integration_key is not a
      non-empty string; the endpoint defaults to the public Events API. */
  function NewPagerDutyProcessor(cfg: CfgMap): (r: Result<PagerDutyProcessor>)
    ensures r.Failure? <==> !HasNonEmptyString(cfg, "integration_key")
    ensures r.Failure? ==> r.error == "pagerduty integration_key is required"
    ensures r.Success? ==> r.value.integrationKey == cfg["integration_key"].s
    ensures r.Success? ==> r.value.apiEndpoint == Slack.GetStringFromConfig(cfg, "api_endpoint", DefaultEndpoint)
  {
    match StringAt(cfg, "integration_key")
    case Some(key) =>
      if key == "" then Failure("pagerduty integration_key is required")
      else Success(PagerDutyProcessor(key, Slack.GetStringFromConfig(cfg, "api_endpoint", DefaultEndpoint)))
    case None => Failure("pagerduty integration_key is required")
  }

  /** Only the exact status "resolved" resolves; everything else triggers. */
  function EventAction(status: string): (r: string)
    ensures r == "resolve" <==> status == "resolved"
    ensures r == "trigger" <==> status != "resolved"
  {
    if status == "resolved" then "resolve" else "trigger"
  }

  /** The summary fallback chain: summary, then description, then the alert name. */
  function Summary(alert: Alert): (r: string)
    ensures Get(alert.annotations, "summary") != "" ==> r == alert.annotations["summary"]
    ensures Get(alert.annotations, "summary") == "" && Get(alert.annotations, "description") != "" ==>
      r == alert.annotations["description"]
    ensures Get(alert.annotations, "summary") == "" && Get(alert.annotations, "description") == "" ==>
      r == "Alert: " + Get(alert.labels, "alertname")
    ensures r != ""
  {
    var summary := Get(alert.annotations, "summary");
    var summary := if summary == "" then Get(alert.annotations, "description") else summary;
    if summary == "" then "Alert: " + Get(alert.labels, "alertname") else summary
  }

  /** `mapSeverity`: the identity on the three levels PagerDuty shares with
      Prometheus, "error" for anything else. */
  function MapSeverity(severity: string): (r: string)
    ensures severity in {"critical", "warning", "info"} ==> r == severity
    ensures severity !in {"critical", "warning", "info"} ==> r == "error"
    ensures r in {"critical", "warning", "info", "error"}
  {
    match severity
    case "critical" => "critical"
    case "warning" => "warning"
    case "info" => "info"
    case _ => "error"
  }

  /** The dedup key: the fingerprint, or alertname-instance without one. */
  function DedupKey(alert: Alert): (r: string)
    ensures alert.fingerprint != "" ==> r == alert.fingerprint
    ensures alert.fingerprint == "" ==> r == Get(alert.labels, "alertname") + "-" + Get(alert.labels, "instance")
    ensures r != ""
  {
    if alert.fingerprint != "" then alert.fingerprint
    else Get(alert.labels, "alertname") + "-" + Get(alert.labels, "instance")
  }

  /** The generator URL becomes the one link, when there is one. */
  function Links(generatorURL: string): (r: seq<PagerDutyLink>)
    ensures |r| > 0 <==> generatorURL != ""
    ensures generatorURL != "" ==> r == [PagerDutyLink(generatorURL, LinkText)]
  {
    if generatorURL != "" then [PagerDutyLink(generatorURL, LinkText)] else []
  }

  /** `key` is "annotation_" followed by the name of an annotation in `names`. */
  predicate IsAnnotationKey(key: string, names: set<string>)
  {
    |key| >= |AnnotationPrefix| && key[..|AnnotationPrefix|] == AnnotationPrefix
    && key[|AnnotationPrefix|..] in names
  }

  lemma PrefixedKey(k: string)
    ensures (AnnotationPrefix + k)[..|AnnotationPrefix|] == AnnotationPrefix
    ensures (AnnotationPrefix + k)[|AnnotationPrefix|..] == k
  {
  }

  /** Adding one annotation name adds exactly its prefixed key. */
  lemma AnnotationKeyStep(key: string, done: set<string>, k: string)
    ensures IsAnnotationKey(key, done + {k}) <==> IsAnnotationKey(key, done) || key == AnnotationPrefix + k
  {
  }

  /** The two loops that fill `customDetails`: every label, then every
      annotation under "annotation_"+name, so an annotation entry overwrites
      a label that happens to carry the same key. */
  method BuildCustomDetails(labels: map<string, string>, annotations: map<string, string>)
    returns (details: map<string, string>)
    ensures forall k :: k in annotations ==>
      AnnotationPrefix + k in details && details[AnnotationPrefix + k] == annotations[k]
    ensures forall key :: key in details <==> key in labels || IsAnnotationKey(key, annotations.Keys)
    ensures forall key :: key in details && IsAnnotationKey(key, annotations.Keys) ==>
      details[key] == annotations[key[|AnnotationPrefix|..]]
    ensures forall key :: key in labels && !IsAnnotationKey(key, annotations.Keys) ==>
      key in details && details[key] == labels[key]
  {
    details := map[];
    var rest := labels.Keys;
    while rest != {}
      invariant rest <= labels.Keys
      invariant forall key :: key in details <==> key in labels && key !in rest
      invariant forall key :: key in details ==> details[key] == labels[key]
      decreases rest
    {
      var k :| k in rest;
      details := details[k := labels[k]];
      rest := rest - {k};
    }

    var todo := annotations.Keys;
    while todo != {}
      invariant todo <= annotations.Keys
      invariant forall key :: key in details <==> key in labels || IsAnnotationKey(key, annotations.Keys - todo)
      invariant forall key :: key in details && IsAnnotationKey(key, annotations.Keys - todo) ==>
        details[key] == annotations[key[|AnnotationPrefix|..]]
      invariant forall key :: key in labels && !IsAnnotationKey(key, annotations.Keys - todo) ==>
        details[key] == labels[key]
      decreases todo
    {
      var k :| k in todo;
      PrefixedKey(k);
      ghost var done := annotations.Keys - todo;
      assert annotations.Keys - (todo - {k}) == done + {k};
      forall key {
        AnnotationKeyStep(key, done, k);
      }
      details := details[AnnotationPrefix + k := annotations[k]];
      todo := todo - {k};
    }

    forall k | k in annotations
      ensures AnnotationPrefix + k in details && details[AnnotationPrefix + k] == annotations[k]
    {
      PrefixedKey(k);
    }
  }

  /** `buildPagerDutyEvent`, without the timestamp. */
  method BuildPagerDutyEvent(pdp: PagerDutyProcessor, alert: Alert) returns (event: PagerDutyEvent)
    ensures event.routingKey == pdp.integrationKey
    ensures event.eventAction == EventAction(alert.status)
    ensures event.dedupKey == DedupKey(alert)
    ensures event.links == Links(alert.generatorURL)
    ensures event.payload.summary == Summary(alert)
    ensures event.payload.source == Get(alert.labels, "instance")
    ensures event.payload.severity == MapSeverity(Get(alert.labels, "severity"))
    ensures forall k :: k in alert.annotations ==>
      AnnotationPrefix + k in event.payload.customDetails
      && event.payload.customDetails[AnnotationPrefix + k] == alert.annotations[k]
    ensures forall key :: key in event.payload.customDetails <==>
      key in alert.labels || IsAnnotationKey(key, alert.annotations.Keys)
    ensures forall key :: key in alert.labels && !IsAnnotationKey(key, alert.annotations.Keys) ==>
      key in event.payload.customDetails && event.payload.customDetails[key] == alert.labels[key]
  {
    var eventAction := "trigger";
    if alert.status == "resolved" {
      eventAction := "resolve";
    }
    var summary := Summary(alert);
    var severity := MapSeverity(Get(alert.labels, "severity"));
    var customDetails := BuildCustomDetails(alert.labels, alert.annotations);
    var payload := PagerDutyPayload(summary, Get(alert.labels, "instance"), severity, customDetails);
    var dedupKey := alert.fingerprint;
    if dedupKey == "" {
      dedupKey := Get(alert.labels, "alertname") + "-" + Get(alert.labels, "instance");
    }
    event := PagerDutyEvent(pdp.integrationKey, eventAction, dedupKey, payload, []);
    if alert.generatorURL != "" {
      event := event.(links := [PagerDutyLink(alert.generatorURL, LinkText)]);
    }
  }

  /** `sendToPagerDuty` succeeds only on HTTP 202 Accepted. */
  function Outcome(reply: Reply): (o: Outcome)
    ensures o == Delivered <==> reply == Response(202)
    ensures o == Fault <==> reply == Panic
    ensures o != Logged
  {
    match reply
    case Response(code) => if code == 202 then Delivered else TxError
    case SendError => TxError
    case Panic => Fault
  }

  /** `Process`: build the event, make one attempt, bump one counter. */
  method Process(pdp: PagerDutyProcessor, alert: Alert, reply: Reply, m: Metrics.Counters)
    returns (event: PagerDutyEvent, o: Outcome)
    modifies m
    ensures o == Outcome(reply)
    ensures m.received == old(m.received)
    ensures m.processed == old(m.processed) + (if o == Delivered then 1 else 0)
    ensures m.errors == old(m.errors) + (if o == TxError then 1 else 0)
  {
    event := BuildPagerDutyEvent(pdp, alert);
    o := Outcome(reply);
    if o == Delivered {
      m.IncProcessed();
    } else if o == TxError {
      m.IncErrors();
    }
  }
}
