/** The processor interface as a closed variant over the five adapters,
    and the per-adapter dispatch the registry calls. */
module Adapters {
  import opened Alerts
  import opened Transport
  import Metrics
  import BasicProcessor
  import Slack
  import Email
  import Webhook
  import PagerDuty

  datatype AlertProcessor =
    | Basic
    | ToSlack(slack: Slack.SlackProcessor)
    | ToEmail(email: Email.EmailProcessor)
    | ToWebhook(webhook: Webhook.WebhookProcessor)
    | ToPagerDuty(pagerDuty: PagerDuty.PagerDutyProcessor)

  /** The configuration `type` string each variant is built from. */
  function Kind(p: AlertProcessor): string
  {
    match p
    case Basic => "basic"
    case ToSlack(_) => "slack"
    case ToEmail(_) => "email"
    case ToWebhook(_) => "webhook"
    case ToPagerDuty(_) => "pagerduty"
  }

  /** The outcome of one `Process` call given the single reply it gets. */
  function OutcomeOf(p: AlertProcessor, reply: Reply): (o: Outcome)
    ensures o == Logged <==> p == Basic
  {
    match p
    case Basic => Logged
    case ToSlack(_) => Slack.Outcome(reply)
    case ToEmail(ep) => Email.ProcessOutcome(ep, reply)
    case ToWebhook(_) => Webhook.Outcome(reply)
    case ToPagerDuty(_) => PagerDuty.Outcome(reply)
  }

  /** A delivering adapter that does not fault bumps exactly one of the two
      counters by one; the basic adapter and a fault bump none. */
  lemma OneCounterPerCall(p: AlertProcessor, reply: Reply)
    ensures OutcomeOf(p, reply) in {Delivered, TxError} <==> p != Basic && OutcomeOf(p, reply) != Fault
  {
  }

  /** `p.Process(alert)`: the request each adapter builds leaves the model
      here; what remains is the outcome and the counters. */
  method Process(p: AlertProcessor, alert: Alert, emailBody: string, reply: Reply, m: Metrics.Counters)
    returns (o: Outcome)
    modifies m
    ensures o == OutcomeOf(p, reply)
    ensures m.received == old(m.received)
    ensures m.processed == old(m.processed) + (if o == Delivered then 1 else 0)
    ensures m.errors == old(m.errors) + (if o == TxError then 1 else 0)
  {
    match p {
      case Basic =>
        var _ := BasicProcessor.Process(alert);
        o := Logged;
      case ToSlack(sp) =>
        var _, r := Slack.Process(sp, alert, reply, m);
        o := r;
      case ToEmail(ep) =>
        var _, r := Email.Process(ep, alert, emailBody, reply, m);
        o := r;
      case ToWebhook(wp) =>
        var _, r := Webhook.Process(wp, alert, reply, m);
        o := r;
      case ToPagerDuty(pdp) =>
        var _, r := PagerDuty.Process(pdp, alert, reply, m);
        o := r;
    }
  }
}
