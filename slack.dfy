/** The Slack incoming-webhook adapter: constructor, message layout,
    acceptance rule and counter outcome. */
module Slack {
  import opened Wrappers
  import opened Alerts
  import opened Config
  import opened Transport
  import Metrics

  datatype SlackProcessor = SlackProcessor(webhookURL: string, channel: string, username: string, iconEmoji: string)

  datatype Field = Field(title: string, value: string, short: bool)

  /** An attachment; its `ts` timestamp (the clock) is not modelled. */
  datatype Attachment = Attachment(
    color: string, title: string, text: string, fields: seq<Field>,
    footer: string, footerIcon: string)

  datatype SlackMessage = SlackMessage(
    text: string, channel: string, username: string, iconEmoji: string,
    attachments: seq<Attachment>)

  const DefaultUsername := "Prometheus Alerts"
  const DefaultIconEmoji := ":fire:"
  const Footer := "Prometheus Alerts Handler"
  const FooterIcon := "https://prometheus.io/assets/favicons/android-chrome-192x192.png"
  const Blue := "#439FE0"

  /** The string stored under `key`, even "", or the default when the key is
      absent or holds a non-string. Shared by every constructor. */
  function GetStringFromConfig(cfg: CfgMap, key: string, defaultValue: string): (r: string)
    ensures key in cfg && cfg[key].Str? ==> r == cfg[key].s
    ensures !(key in cfg && cfg[key].Str?) ==> r == defaultValue
  {
    match StringAt(cfg, key)
    case Some(v) => v
    case None => defaultValue
  }

  /** `NewSlackProcessor`: fails exactly when webhook_url is not a non-empty
      string; otherwise the optional keys take their defaults. */
  function NewSlackProcessor(cfg: CfgMap): (r: Result<SlackProcessor>)
    ensures r.Failure? <==> !HasNonEmptyString(cfg, "webhook_url")
    ensures r.Failure? ==> r.error == "slack webhook_url is required"
    ensures r.Success? ==> r.value == SlackProcessor(
      cfg["webhook_url"].s,
      GetStringFromConfig(cfg, "channel", ""),
      GetStringFromConfig(cfg, "username", DefaultUsername),
      GetStringFromConfig(cfg, "icon_emoji", DefaultIconEmoji))
  {
    match StringAt(cfg, "webhook_url")
    case Some(url) =>
      if url == "" then Failure("slack webhook_url is required")
      else Success(SlackProcessor(
        url,
        GetStringFromConfig(cfg, "channel", ""),
        GetStringFromConfig(cfg, "username", DefaultUsername),
        GetStringFromConfig(cfg, "icon_emoji", DefaultIconEmoji)))
    case None => Failure("slack webhook_url is required")
  }

  /** `getColorForStatus`: a resolved alert is green whatever its severity. */
  function ColorForStatus(status: string, severity: string): (r: string)
    ensures status == "resolved" ==> r == "good"
    ensures status != "resolved" && severity == "critical" ==> r == "danger"
    ensures status != "resolved" && severity == "warning" ==> r == "warning"
    ensures status != "resolved" && severity != "critical" && severity != "warning" ==> r == Blue
    ensures r in {"good", "danger", "warning", Blue}
  {
    if status == "resolved" then "good"
    else if severity == "critical" then "danger"
    else if severity == "warning" then "warning"
    else Blue
  }

  /** `buildSlackMessage`, without the timestamp. */
  method BuildSlackMessage(sp: SlackProcessor, alert: Alert) returns (msg: SlackMessage)
    ensures msg.channel == sp.channel && msg.username == sp.username && msg.iconEmoji == sp.iconEmoji
    ensures msg.text == ""
    ensures |msg.attachments| == 1
    ensures msg.attachments[0].color == ColorForStatus(alert.status, Get(alert.labels, "severity"))
    ensures msg.attachments[0].title ==
      if Get(alert.labels, "alertname") == "" then "Prometheus Alert"
      else "Alert: " + alert.labels["alertname"]
    ensures msg.attachments[0].text ==
      if Get(alert.annotations, "description") != "" then alert.annotations["description"]
      else Get(alert.annotations, "summary")
    ensures msg.attachments[0].footer == Footer && msg.attachments[0].footerIcon == FooterIcon
    // the field list: Status, then Severity iff present, then Instance iff present
    ensures var fs := msg.attachments[0].fields;
      && 1 <= |fs| <= 3
      && |fs| == 1 + (if "severity" in alert.labels then 1 else 0) + (if "instance" in alert.labels then 1 else 0)
      && fs[0] == Field("Status", alert.status, true)
      && ("severity" in alert.labels ==> fs[1] == Field("Severity", alert.labels["severity"], true))
      && ("instance" in alert.labels ==> fs[|fs| - 1] == Field("Instance", alert.labels["instance"], true))
      && (forall f :: f in fs ==> f.short)
  {
    var color := ColorForStatus(alert.status, Get(alert.labels, "severity"));

    var title := "Alert: " + Get(alert.labels, "alertname");
    if title == "Alert: " {
      title := "Prometheus Alert";
    }
    assert Get(alert.labels, "alertname") != "" ==> title == "Alert: " + alert.labels["alertname"] by {
      var name := Get(alert.labels, "alertname");
      assert |"Alert: " + name| == 7 + |name|;
    }

    var fields: seq<Field> := [];
    fields := fields + [Field("Status", alert.status, true)];
    if "severity" in alert.labels {
      fields := fields + [Field("Severity", alert.labels["severity"], true)];
    }
    if "instance" in alert.labels {
      fields := fields + [Field("Instance", alert.labels["instance"], true)];
    }

    var description := Get(alert.annotations, "description");
    if description == "" {
      description := Get(alert.annotations, "summary");
    }

    var attachment := Attachment(color, title, description, fields, Footer, FooterIcon);
    msg := SlackMessage("", sp.channel, sp.username, sp.iconEmoji, [attachment]);
  }

  /** `sendToSlack` succeeds only on HTTP 200; a fault yields no outcome of its own. */
  function Outcome(reply: Reply): (o: Outcome)
    ensures o == Delivered <==> reply == Response(200)
    ensures o == Fault <==> reply == Panic
    ensures o != Logged
  {
    match reply
    case Response(code) => if code == 200 then Delivered else TxError
    case SendError => TxError
    case Panic => Fault
  }

  /** `Process`: build the message, make one attempt, bump one counter. */
  method Process(sp: SlackProcessor, alert: Alert, reply: Reply, m: Metrics.Counters)
    returns (msg: SlackMessage, o: Outcome)
    modifies m
    ensures o == Outcome(reply)
    ensures m.received == old(m.received)
    ensures m.processed == old(m.processed) + (if o == Delivered then 1 else 0)
    ensures m.errors == old(m.errors) + (if o == TxError then 1 else 0)
  {
    msg := BuildSlackMessage(sp, alert);
    o := Outcome(reply);
    if o == Delivered {
      m.IncProcessed();
    } else if o == TxError {
      m.IncErrors();
    }
  }
}
