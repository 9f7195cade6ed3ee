/** The SMTP e-mail adapter: constructor validation, subject line, MIME
    header layout and counter outcome. The HTML body is rendered by a
    template library and enters the model as an opaque string. */
module Email {
  import opened Wrappers
  import opened Alerts
  import opened Config
  import opened Transport
  import Slack
  import Metrics

  datatype EmailProcessor = EmailProcessor(
    smtpHost: string, smtpPort: int, smtpUser: string, smtpPassword: string,
    from: string, to: seq<string>, subject: string)

  /** What `sendEmail` hands to `smtp.SendMail`. */
  datatype MailRequest = MailRequest(
    host: string, port: int, user: string, password: string,
    from: string, to: seq<string>, message: string)

  const DefaultSmtpPort := 587
  const DefaultSubject := "Prometheus Alert Notification"

  /** The string elements of a YAML list, in order; other elements dropped. */
  function Recipients(items: seq<CfgVal>): (r: seq<string>)
    ensures |r| <= |items|
  {
    if items == [] then []
    else
      var last := items[|items| - 1];
      Recipients(items[..|items| - 1]) + (if last.Str? then [last.s] else [])
  }

  /** A string is a recipient exactly when the list holds it as a string. */
  lemma {:induction false} RecipientsMembership(items: seq<CfgVal>, s: string)
    ensures s in Recipients(items) <==> Str(s) in items
  {
    if items != [] {
      var init := items[..|items| - 1];
      RecipientsMembership(init, s);
      assert items == init + [items[|items| - 1]];
    }
  }

  /** Filtering distributes over concatenation, so the order of the list is kept. */
  lemma {:induction false} RecipientsAppend(xs: seq<CfgVal>, ys: seq<CfgVal>)
    ensures Recipients(xs + ys) == Recipients(xs) + Recipients(ys)
  {
    if ys != [] {
      var init := ys[..|ys| - 1];
      assert (xs + ys)[..|xs + ys| - 1] == xs + init;
      RecipientsAppend(xs, init);
    } else {
      assert xs + ys == xs;
    }
  }

  /** The recipients configured under "to": none unless it holds a list. */
  function ConfiguredRecipients(cfg: CfgMap): seq<string>
  {
    if "to" in cfg && cfg["to"].List? then Recipients(cfg["to"].items) else []
  }

  /** The SMTP port: taken only when the value is an integer. */
  function SmtpPort(cfg: CfgMap): (r: int)
    ensures "smtp_port" in cfg && cfg["smtp_port"].Int? ==> r == cfg["smtp_port"].i
    ensures !("smtp_port" in cfg && cfg["smtp_port"].Int?) ==> r == DefaultSmtpPort
  {
    if "smtp_port" in cfg && cfg["smtp_port"].Int? then cfg["smtp_port"].i else DefaultSmtpPort
  }

  /** What `NewEmailProcessor` returns. The checks run in the order smtp_host,
      smtp_user, smtp_password, from, recipients; the first failing one
      decides the error. */
  function EmailConfig(cfg: CfgMap): (r: Result<EmailProcessor>)
    ensures r == Failure("smtp_host is required") <==> !HasNonEmptyString(cfg, "smtp_host")
    ensures r == Failure("smtp_user is required") <==>
      HasNonEmptyString(cfg, "smtp_host") && !HasNonEmptyString(cfg, "smtp_user")
    ensures r == Failure("smtp_password is required") <==>
      HasNonEmptyString(cfg, "smtp_host") && HasNonEmptyString(cfg, "smtp_user")
      && !HasNonEmptyString(cfg, "smtp_password")
    ensures r == Failure("from email is required") <==>
      HasNonEmptyString(cfg, "smtp_host") && HasNonEmptyString(cfg, "smtp_user")
      && HasNonEmptyString(cfg, "smtp_password") && !HasNonEmptyString(cfg, "from")
    ensures r == Failure("at least one recipient email is required") <==>
      HasNonEmptyString(cfg, "smtp_host") && HasNonEmptyString(cfg, "smtp_user")
      && HasNonEmptyString(cfg, "smtp_password") && HasNonEmptyString(cfg, "from")
      && ConfiguredRecipients(cfg) == []
    ensures r.Success? ==> r.value == EmailProcessor(
      cfg["smtp_host"].s, SmtpPort(cfg), cfg["smtp_user"].s, cfg["smtp_password"].s,
      cfg["from"].s, ConfiguredRecipients(cfg),
      Slack.GetStringFromConfig(cfg, "subject", DefaultSubject))
    ensures r.Success? ==> |r.value.to| >= 1
  {
    if !HasNonEmptyString(cfg, "smtp_host") then Failure("smtp_host is required")
    else if !HasNonEmptyString(cfg, "smtp_user") then Failure("smtp_user is required")
    else if !HasNonEmptyString(cfg, "smtp_password") then Failure("smtp_password is required")
    else if !HasNonEmptyString(cfg, "from") then Failure("from email is required")
    else if ConfiguredRecipients(cfg) == [] then Failure("at least one recipient email is required")
    else Success(EmailProcessor(
      cfg["smtp_host"].s, SmtpPort(cfg), cfg["smtp_user"].s, cfg["smtp_password"].s,
      cfg["from"].s, ConfiguredRecipients(cfg),
      Slack.GetStringFromConfig(cfg, "subject", DefaultSubject)))
  }

  /** The loop of `NewEmailProcessor` that keeps the string entries of "to". */
  method CollectRecipients(items: seq<CfgVal>) returns (to: seq<string>)
    ensures to == Recipients(items)
  {
    to := [];
    var i := 0;
    while i < |items|
      invariant 0 <= i <= |items|
      invariant to == Recipients(items[..i])
    {
      assert items[..i + 1][..i] == items[..i];
      if items[i].Str? {
        to := to + [items[i].s];
      }
      i := i + 1;
    }
    assert items[..i] == items;
  }

  /** `NewEmailProcessor`. */
  method NewEmailProcessor(cfg: CfgMap) returns (r: Result<EmailProcessor>)
    ensures r == EmailConfig(cfg)
  {
    var smtpHost := StringAt(cfg, "smtp_host");
    if smtpHost.None? || smtpHost.value == "" {
      return Failure("smtp_host is required");
    }
    var smtpPort := DefaultSmtpPort;
    if "smtp_port" in cfg && cfg["smtp_port"].Int? {
      smtpPort := cfg["smtp_port"].i;
    }
    var smtpUser := StringAt(cfg, "smtp_user");
    if smtpUser.None? || smtpUser.value == "" {
      return Failure("smtp_user is required");
    }
    var smtpPassword := StringAt(cfg, "smtp_password");
    if smtpPassword.None? || smtpPassword.value == "" {
      return Failure("smtp_password is required");
    }
    var from := StringAt(cfg, "from");
    if from.None? || from.value == "" {
      return Failure("from email is required");
    }
    var to: seq<string> := [];
    if "to" in cfg && cfg["to"].List? {
      to := CollectRecipients(cfg["to"].items);
    }
    if |to| == 0 {
      return Failure("at least one recipient email is required");
    }
    r := Success(EmailProcessor(
      smtpHost.value, smtpPort, smtpUser.value, smtpPassword.value, from.value, to,
      Slack.GetStringFromConfig(cfg, "subject", DefaultSubject)));
  }

  /** `buildSubject`: built from the alert alone, never from the configured subject. */
  function BuildSubject(ep: EmailProcessor, alert: Alert): (r: string)
    ensures Get(alert.labels, "alertname") != "" ==>
      r == "[" + Get(alert.labels, "severity") + "] " + alert.status + " - " + alert.labels["alertname"]
    ensures Get(alert.labels, "alertname") == "" ==>
      r == "[" + Get(alert.labels, "severity") + "] Prometheus Alert - " + alert.status
  {
    var alertName := Get(alert.labels, "alertname");
    var severity := Get(alert.labels, "severity");
    if alertName != "" then "[" + severity + "] " + alert.status + " - " + alertName
    else "[" + severity + "] Prometheus Alert - " + alert.status
  }

  /** The subject line does not depend on any configured field. */
  lemma SubjectIgnoresConfiguration(ep: EmailProcessor, other: EmailProcessor, alert: Alert)
    ensures BuildSubject(ep, alert) == BuildSubject(other, alert)
  {
  }

  /** The fixed header block in front of the body; only the first recipient is named. */
  function MimeHeader(from: string, firstRecipient: string, subject: string): string
  {
    "From: " + from + "\r\n" + "To: " + firstRecipient + "\r\n" + "Subject: " + subject + "\r\n"
    + "MIME-Version: 1.0\r\n" + "Content-Type: text/html; charset=UTF-8\r\n" + "\r\n"
  }

  /** `buildMIMEMessage`: the header lines written one after another, then the body. */
  method BuildMIMEMessage(ep: EmailProcessor, subject: string, body: string) returns (msg: string)
    requires |ep.to| >= 1
    ensures msg == MimeHeader(ep.from, ep.to[0], subject) + body
    ensures |msg| >= |body| && msg[|msg| - |body|..] == body
  {
    msg := "";
    msg := msg + "From: " + ep.from + "\r\n";
    msg := msg + "To: " + ep.to[0] + "\r\n";
    msg := msg + "Subject: " + subject + "\r\n";
    msg := msg + "MIME-Version: 1.0\r\n";
    msg := msg + "Content-Type: text/html; charset=UTF-8\r\n";
    msg := msg + "\r\n";
    ghost var header := msg;
    msg := msg + body;
    assert msg[|header|..] == body;
  }

  /** `sendEmail` succeeds when the SMTP exchange does (a `Response` reply). */
  function Outcome(reply: Reply): (o: Outcome)
    ensures o == Delivered <==> reply.Response?
    ensures o == TxError <==> reply == SendError
    ensures o == Fault <==> reply == Panic
  {
    match reply
    case Response(_) => Delivered
    case SendError => TxError
    case Panic => Fault
  }

  /** A processor built by hand with no recipients faults on `To[0]`, a
      runtime panic the registry recovers; otherwise the reply decides. */
  function ProcessOutcome(ep: EmailProcessor, reply: Reply): (o: Outcome)
    ensures |ep.to| == 0 ==> o == Fault
    ensures |ep.to| >= 1 ==> o == Outcome(reply)
  {
    if |ep.to| == 0 then Fault else Outcome(reply)
  }

  /** A constructed processor never takes the `To[0]` fault path. */
  lemma ConstructedNeverFaultsOnRecipients(cfg: CfgMap, reply: Reply)
    requires EmailConfig(cfg).Success?
    ensures ProcessOutcome(EmailConfig(cfg).value, reply) == Outcome(reply)
  {
  }

  /** `Process`: subject, body and MIME message, one send, one counter. */
  method Process(ep: EmailProcessor, alert: Alert, body: string, reply: Reply, m: Metrics.Counters)
    returns (request: Option<MailRequest>, o: Outcome)
    modifies m
    ensures o == ProcessOutcome(ep, reply)
    ensures request.Some? <==> |ep.to| >= 1
    ensures request.Some? ==> request.value == MailRequest(
      ep.smtpHost, ep.smtpPort, ep.smtpUser, ep.smtpPassword, ep.from, ep.to,
      MimeHeader(ep.from, ep.to[0], BuildSubject(ep, alert)) + body)
    ensures m.received == old(m.received)
    ensures m.processed == old(m.processed) + (if o == Delivered then 1 else 0)
    ensures m.errors == old(m.errors) + (if o == TxError then 1 else 0)
  {
    if |ep.to| == 0 {
      // the index panic unwinds before either counter is touched
      return None, Fault;
    }
    var subject := BuildSubject(ep, alert);
    var msg := BuildMIMEMessage(ep, subject, body);
    request := Some(MailRequest(ep.smtpHost, ep.smtpPort, ep.smtpUser, ep.smtpPassword, ep.from, ep.to, msg));
    o := Outcome(reply);
    if o == Delivered {
      m.IncProcessed();
    } else if o == TxError {
      m.IncErrors();
    }
  }
}
