/** The processor factory: the type switch that builds an adapter from a
    descriptor, and the name-keyed processor table. */
module Factory {
  import opened Wrappers
  import opened Config
  import opened Adapters
  import Slack
  import Email
  import Webhook
  import PagerDuty

  const KnownKinds := {"basic", "slack", "email", "webhook", "pagerduty"}

  /** Wraps a constructor's result in the matching variant, keeping its error. */
  function Lift<T>(r: Result<T>, wrap: T -> AlertProcessor): (out: Result<AlertProcessor>)
    ensures out.Success? <==> r.Success?
    ensures r.Success? ==> out.value == wrap(r.value)
    ensures r.Failure? ==> out.error == r.error
  {
    match r
    case Success(v) => Success(wrap(v))
    case Failure(e) => Failure(e)
  }

  /** `out` succeeds exactly when the constructor result `r` does, and
      otherwise carries the constructor's error unchanged. */
  predicate Delegates<T>(out: Result<AlertProcessor>, r: Result<T>)
  {
    (out.Success? <==> r.Success?) && (r.Failure? ==> out == Failure(r.error))
  }

  /** What `CreateProcessor` returns for a descriptor. */
  function Create(d: ProcessorConfig): Result<AlertProcessor>
  {
    match d.kind
    case "slack" => Lift(Slack.NewSlackProcessor(d.config), s => ToSlack(s))
    case "email" => Lift(Email.EmailConfig(d.config), e => ToEmail(e))
    case "webhook" => Lift(Webhook.WebhookConfig(d.config), w => ToWebhook(w))
    case "pagerduty" => Lift(PagerDuty.NewPagerDutyProcessor(d.config), p => ToPagerDuty(p))
    case "basic" => Success(Basic)
    case _ => Failure("unknown processor type: " + d.kind)
  }

  /** The variant built always matches the requested type; "basic" never
      fails; an unknown type fails with its name in the message; the four
      delivering types succeed exactly when their constructor does, and
      fail with the constructor's own error. */
  lemma CreateContract(d: ProcessorConfig)
    ensures Create(d).Success? ==> Kind(Create(d).value) == d.kind
    ensures d.kind == "basic" ==> Create(d) == Success(Basic)
    ensures d.kind !in KnownKinds ==> Create(d) == Failure("unknown processor type: " + d.kind)
    ensures d.kind == "slack" ==> Delegates(Create(d), Slack.NewSlackProcessor(d.config))
    ensures d.kind == "email" ==> Delegates(Create(d), Email.EmailConfig(d.config))
    ensures d.kind == "webhook" ==> Delegates(Create(d), Webhook.WebhookConfig(d.config))
    ensures d.kind == "pagerduty" ==> Delegates(Create(d), PagerDuty.NewPagerDutyProcessor(d.config))
  {
  }

  /** Success for a delivering type is exactly its constructor's validity test. */
  lemma CreateSucceedsExactly(d: ProcessorConfig)
    ensures Create(d).Success? <==>
      || d.kind == "basic"
      || (d.kind == "slack" && HasNonEmptyString(d.config, "webhook_url"))
      || (d.kind == "webhook" && HasNonEmptyString(d.config, "url"))
      || (d.kind == "pagerduty" && HasNonEmptyString(d.config, "integration_key"))
      || (d.kind == "email" && HasNonEmptyString(d.config, "smtp_host")
          && HasNonEmptyString(d.config, "smtp_user") && HasNonEmptyString(d.config, "smtp_password")
          && HasNonEmptyString(d.config, "from") && Email.ConfiguredRecipients(d.config) != [])
  {
  }

  class Factory {
    var processors: map<string, AlertProcessor>

    /** `NewFactory`: the table starts empty. */
    constructor ()
      ensures processors == map[]
    {
      processors := map[];
    }

    /** `Register`: the name now maps to `p`, overwriting; other names keep theirs. */
    method Register(name: string, p: AlertProcessor)
      modifies this
      ensures processors == old(processors)[name := p]
    {
      processors := processors[name := p];
    }

    /** `GetProcessor`: the registered processor and `true`, or nothing and `false`. */
    method GetProcessor(name: string) returns (p: Option<AlertProcessor>, ok: bool)
      ensures ok <==> name in processors
      ensures ok ==> p == Some(processors[name])
      ensures !ok ==> p == None
    {
      if name in processors {
        return Some(processors[name]), true;
      }
      return None, false;
    }

    /** `GetAllProcessors`: one entry per registered name, in the map's
        iteration order (unspecified, so chosen freely here). `names` records
        which name each entry came from. */
    method GetAllProcessors() returns (all: seq<AlertProcessor>, ghost names: seq<string>)
      ensures |all| == |processors|
      ensures forall i :: 0 <= i < |all| ==> all[i] in processors.Values
      ensures forall n :: n in processors ==> processors[n] in all
      ensures |names| == |all|
      ensures forall i :: 0 <= i < |names| ==> names[i] in processors && all[i] == processors[names[i]]
      ensures forall i, j :: 0 <= i < j < |names| ==> names[i] != names[j]
      ensures forall n :: n in processors ==> n in names
    {
      all, names := [], [];
      var rest := processors.Keys;
      while rest != {}
        invariant rest <= processors.Keys
        invariant |all| == |names| && |names| + |rest| == |processors.Keys|
        invariant forall i :: 0 <= i < |names| ==> names[i] in processors && names[i] !in rest
        invariant forall i :: 0 <= i < |names| ==> all[i] == processors[names[i]]
        invariant forall i, j :: 0 <= i < j < |names| ==> names[i] != names[j]
        invariant forall n :: n in processors ==> n in names || n in rest
        decreases rest
      {
        var n :| n in rest;
        all, names := all + [processors[n]], names + [n];
        rest := rest - {n};
      }
    }

    /** `CreateProcessor`: the type switch, calling the constructors. */
    method CreateProcessor(d: ProcessorConfig) returns (r: Result<AlertProcessor>)
      ensures r == Create(d)
    {
      match d.kind {
        case "slack" =>
          r := Lift(Slack.NewSlackProcessor(d.config), s => ToSlack(s));
        case "email" =>
          var e := Email.NewEmailProcessor(d.config);
          r := Lift(e, e => ToEmail(e));
        case "webhook" =>
          var w := Webhook.NewWebhookProcessor(d.config);
          r := Lift(w, w => ToWebhook(w));
        case "pagerduty" =>
          r := Lift(PagerDuty.NewPagerDutyProcessor(d.config), p => ToPagerDuty(p));
        case "basic" =>
          r := Success(Basic);
        case _ =>
          r := Failure("unknown processor type: " + d.kind);
      }
    }
  }
}
