# Alert routing core of the Prometheus alerts handler, in Dafny

This project models the alert-routing layer of the Prometheus alerts handler.
An alert from Alertmanager (status, labels, annotations, timestamps,
generator URL, fingerprint) goes to every registered destination adapter.
The adapters are Slack, e-mail, generic webhook, PagerDuty and the log-only
basic processor. Each adapter:

- is built from an untyped configuration map, which may fail with an error;
- turns the alert into its own payload;
- makes one delivery attempt;
- bumps the "processed" or the "processing errors" counter.

The registry holds the adapters in registration order. It hands one alert to
each of them and keeps a fault in one adapter from reaching the others. It is
filled from an ordered list of descriptors through the factory's type switch.
Start-up applies configuration defaults, falls back to a built-in
configuration, and registers a basic adapter when nothing else loaded.

Modules follow the source files:

- `Config`: config/config.go.
- `Slack`, `PagerDuty`, `Email`, `Webhook`, `BasicProcessor`, `Factory`, `Registry`: the files of processors/.
- `Processor`: processor/alertprocessor.go.
- `App`: the two fragments of main.go.
- Supporting modules: `Alerts` (the alert record and Go's zero-value map lookup), `Transport` (replies and outcomes), `Metrics` (the counter object), `Adapters` (the processor interface as a closed variant), `Wrappers`.

How the source's effects are represented:

- Untyped maps: `map[string]interface{}` is `map<string, CfgVal>`. `CfgVal` is `Str | Int | List | Map | Other`, mirroring Go's type assertions.
- The network and SMTP: one `Reply` per delivery attempt, namely an HTTP status (for e-mail, "the SMTP exchange succeeded"), a send error, or a runtime fault. The registry takes `net: nat -> Reply`, the reply to the i-th adapter's single attempt.
- Counters: the Prometheus counters are the fields `received`, `processed` and `errors` of one `Metrics.Counters` object. It is passed to the code that bumps them.
- E-mail body: the HTML body produced by the template engine is a parameter (`render`).
- Dispatch order: the fan-out is sequential, in list order. The source runs one goroutine per adapter and waits for all of them. The model keeps only what the source guarantees: each adapter is invoked exactly once with the same alert, and a fault stays with its adapter.

Where the design description and the code differ, the model follows the code:

- The basic processor bumps no counter. The description says every variant counts its successes.
- The description talks of an ingress endpoint that accepts two wire shapes. The handler shown in handler/alertshandler.go only decodes a bare array, and that handler is not part of this model.
- The code disagrees with itself on the alert type (`handler.Alert` against `types.Alert`) and on which counters exist. The model uses one `Alert` and one counter object.

## Model

| member | source | states |
|---|---|---|
| `Config.WithDefaults` | config/config.go:44-52 | port 0 becomes 8080, metrics port 0 becomes 2112, log level "" becomes "info"; non-zero and non-empty values are kept; afterwards none of the three is zero or empty |
| `Config.ApplyDefaults` | config/config.go:43-54 | the field-by-field defaulting of a parsed configuration yields `WithDefaults` of its server section and leaves the processor list untouched |
| `Config.WithDefaultsIdempotent` | config/config.go:44-52 | defaulting is idempotent, and a server section is a fixed point exactly when none of its three fields is zero or empty |
| `Config.GetEnv` | config/config.go:57-63 | a set, non-empty variable is returned; an unset or empty one gives the default |
| `Config.EmptyEnvIsUnset` | config/config.go:59 | a variable set to "" reads exactly like an unset one, namely as the default |
| `Metrics.Counters.constructor` | metrics/metrics.go:8-15 | all counters start at zero |
| `Metrics.Counters.IncProcessed` | processors/pagerduty.go:92 | bumps the processed counter by one and touches no other counter |
| `Metrics.Counters.IncErrors` | processors/pagerduty.go:88 | bumps the error counter by one and touches no other counter |
| `Slack.GetStringFromConfig` | processors/slack.go:186-192 | a string value is returned even when it is ""; the default is returned only when the key is absent or holds a non-string |
| `Slack.NewSlackProcessor` | processors/slack.go:52-68 | fails, with "slack webhook_url is required", exactly when webhook_url is missing, not a string or empty; otherwise the channel defaults to "", the username to "Prometheus Alerts" and the icon to ":fire:" |
| `Slack.ColorForStatus` | processors/slack.go:170-184 | "good" whenever the status is "resolved", whatever the severity; otherwise critical gives "danger", warning gives "warning" and anything else gives "#439FE0"; always one of those four |
| `Slack.BuildSlackMessage` | processors/slack.go:90-147 | exactly one attachment. Its title is "Alert: "+alertname, or "Prometheus Alert" when alertname is empty or missing. Its text is the description, or the summary when the description is empty. Its fields are Status, then Severity exactly when the label exists (even if empty), then Instance exactly when that label exists; all are short and there are 1 to 3 of them. Channel, username and icon come from the processor |
| `Slack.Outcome` | processors/slack.go:150-167 | delivery succeeds exactly on HTTP 200; a fault is a fault; never log-only |
| `Slack.Process` | processors/slack.go:71-87 | one attempt; the processed counter is bumped exactly on success and the error counter exactly on a transmission error; a fault bumps neither |
| `PagerDuty.NewPagerDutyProcessor` | processors/pagerduty.go:57-75 | fails, with "pagerduty integration_key is required", exactly when integration_key is missing, not a string or empty; the endpoint defaults to https://events.pagerduty.com/v2/enqueue |
| `PagerDuty.EventAction` | processors/pagerduty.go:98-102 | "resolve" exactly when the status is "resolved"; every other status, unknown strings included, gives "trigger" |
| `PagerDuty.Summary` | processors/pagerduty.go:104-111 | the summary annotation if non-empty, else the description if non-empty, else "Alert: "+alertname; never empty |
| `PagerDuty.MapSeverity` | processors/pagerduty.go:180-192 | the identity on critical, warning and info, and "error" for anything else, so the result is always one of those four |
| `PagerDuty.DedupKey` | processors/pagerduty.go:134-138 | the fingerprint when non-empty, else alertname + "-" + instance |
| `PagerDuty.Links` | processors/pagerduty.go:147-155 | non-empty exactly when the generator URL is non-empty, and then exactly one link to it with text "View in Prometheus" |
| `PagerDuty.BuildCustomDetails` | processors/pagerduty.go:116-123 | the keys are exactly the label keys plus "annotation_"+k for every annotation k. Every annotation is stored under its prefixed key. A label keeps its value unless it is literally named like a prefixed annotation key, in which case the annotation wins |
| `PagerDuty.BuildPagerDutyEvent` | processors/pagerduty.go:96-158 | the routing key is the integration key; action, summary, severity, dedup key and links are as above; the source is the instance label; the custom details are as above |
| `PagerDuty.Outcome` | processors/pagerduty.go:160-178 | delivery succeeds exactly on HTTP 202; any other status or a send error is a transmission error |
| `PagerDuty.Process` | processors/pagerduty.go:77-94 | one attempt; the processed counter is bumped exactly on success and the error counter exactly on a transmission error; a fault bumps neither |
| `Email.Recipients` | processors/email.go:52-59 | keeps at most as many entries as the list has |
| `Email.RecipientsMembership` | processors/email.go:54-57 | a string is a recipient exactly when the list holds it as a string element |
| `Email.RecipientsAppend` | processors/email.go:54-57 | filtering distributes over concatenation, so the string elements keep their list order |
| `Email.SmtpPort` | processors/email.go:32-35 | smtp_port is used only when it holds an integer, else 587 |
| `Email.EmailConfig` | processors/email.go:26-76 | checks smtp_host, smtp_user, smtp_password and from, then a non-empty recipient list, in that order; each error message holds exactly when its check is the first to fail. On success the fields are taken from the configuration, the subject defaults to "Prometheus Alert Notification" and there is at least one recipient |
| `Email.CollectRecipients` | processors/email.go:52-59 | the loop keeps exactly the string elements of the list, in order |
| `Email.NewEmailProcessor` | processors/email.go:26-76 | the constructor returns exactly `EmailConfig` of its configuration |
| `Email.BuildSubject` | processors/email.go:112-122 | "[sev] status - name" when alertname is non-empty, else "[sev] Prometheus Alert - status" |
| `Email.SubjectIgnoresConfiguration` | processors/email.go:113-122 | the subject line does not depend on any configured field, the configured subject included |
| `Email.BuildMIMEMessage` | processors/email.go:188-201 | exactly the From, To (first recipient only), Subject, MIME-Version and Content-Type lines, each ending in CRLF, then an empty CRLF line and the body; the body is a suffix of the message |
| `Email.Outcome` | processors/email.go:95-110 | delivered exactly when the SMTP exchange succeeds, a transmission error exactly when it fails |
| `Email.ProcessOutcome` | processors/email.go:189-193 | a processor without recipients faults on the first-recipient lookup; otherwise the reply decides |
| `Email.ConstructedNeverFaultsOnRecipients` | processors/email.go:61-63 | a processor built by the constructor never takes that fault path, so the first-recipient lookup is safe |
| `Email.Process` | processors/email.go:78-110 | sends exactly one message to all recipients, carrying the MIME text for the built subject and the body; bumps the processed counter exactly on success and the error counter exactly on a transmission error |
| `Webhook.StringEntries` | processors/webhook.go:34-38 | keeps exactly the string-valued entries of a header map |
| `Webhook.ConfiguredHeaders` | processors/webhook.go:32-39 | gives no headers when "headers" is absent or not a map |
| `Webhook.WebhookConfig` | processors/webhook.go:24-52 | fails, with "webhook url is required", exactly when url is missing, not a string or empty; method defaults to "POST" only when absent or not a string; headers as above |
| `Webhook.CollectHeaders` | processors/webhook.go:33-39 | the loop over the header map yields exactly its string entries |
| `Webhook.NewWebhookProcessor` | processors/webhook.go:24-52 | the constructor returns exactly `WebhookConfig` of its configuration |
| `Webhook.RequestHeaders` | processors/webhook.go:84-87 | the keys are the configured ones plus Content-Type; configured values win, even for Content-Type; otherwise Content-Type is application/json |
| `Webhook.Outcome` | processors/webhook.go:94-96 | delivery succeeds exactly for a status from 200 to 299 |
| `Webhook.Process` | processors/webhook.go:54-100 | one request, with the configured method and URL, the alert as body and the headers above; one attempt and no retry; bumps exactly one counter unless it faults |
| `BasicProcessor.Process` | processors/basicprocessor.go:14-31 | a missing severity label takes the no-severity branch and only then; "critical" and "warning" take their branches; every other value, "info" and "" included, is unknown; total, never faults |
| `Processor.ProcessAlert` | processor/alertprocessor.go:8-24 | the same four-way severity switch at package level |
| `Processor.SameClassification` | processor/alertprocessor.go:8-24 | the package-level switch and the basic processor's switch agree on every alert |
| `Adapters.OutcomeOf` | processors/registry.go:45-52 | an invocation is log-only exactly for the basic processor |
| `Adapters.OneCounterPerCall` | processors/registry.go:45-52 | an invocation bumps a counter exactly when the adapter delivers (not basic) and does not fault |
| `Adapters.Process` | processors/registry.go:52 | invoking an adapter yields its outcome and bumps processed or errors according to that outcome alone |
| `Factory.CreateContract` | processors/factory.go:27-41 | a built processor's variant always matches the requested type; "basic" always succeeds; slack, email, webhook and pagerduty succeed exactly when their constructor does and carry its error; any other type fails with "unknown processor type: <type>" |
| `Factory.CreateSucceedsExactly` | processors/factory.go:27-41 | success is exactly "basic", or a delivering type whose required keys are present |
| `Factory.Factory.constructor` | processors/factory.go:15-19 | a fresh factory knows no name |
| `Factory.Factory.Register` | processors/factory.go:22-24 | the name now maps to the processor, overwriting, and every other name is unchanged |
| `Factory.Factory.GetProcessor` | processors/factory.go:45-48 | returns the registered processor and true, or nothing and false |
| `Factory.Factory.GetAllProcessors` | processors/factory.go:51-57 | as many entries as registered names, each a registered processor and every registered processor present; a ghost list pairs each entry with its distinct name |
| `Factory.Factory.CreateProcessor` | processors/factory.go:27-41 | the type switch returns exactly `Create` of the descriptor |
| `Registry.CountsPartition` | processors/registry.go:43-55 | every invocation has exactly one of the four outcomes |
| `Registry.Loaded` | processors/registry.go:62-80 | never yields more adapters than there are descriptors |
| `Registry.LoadedAppend` | processors/registry.go:62-80 | loading keeps configuration order: the load of a concatenation is the concatenation of the loads |
| `Registry.LoadedExactly` | processors/registry.go:62-80 | every loaded adapter comes from an enabled descriptor that builds, and every such descriptor's adapter is loaded |
| `Registry.DisabledLoadsNothing` | processors/registry.go:63-66 | a list of disabled descriptors loads nothing |
| `Registry.Registry.constructor` | processors/registry.go:18-22 | a new registry is empty |
| `Registry.Registry.Register` | processors/registry.go:25-29 | appends the processor at the end; the old list stays a prefix and the count grows by one |
| `Registry.Registry.ProcessAlert` | processors/registry.go:32-56 | invokes every registered processor exactly once, in order, with the same alert; a fault is recovered and later processors still run; the list is unchanged; processed and errors grow by the number of deliveries and transmission errors; with no processors nothing is invoked and no counter changes |
| `Registry.Registry.LoadFromConfig` | processors/registry.go:59-82 | appends, in configuration order, exactly the adapters of the enabled descriptors that build, and returns no error |
| `Registry.Registry.GetProcessorCount` | processors/registry.go:85-89 | the length of the processor list |
| `App.DefaultConfig` | main.go:203-219 | port 8080, metrics port 2112, log level "info", and exactly one enabled "basic" descriptor named "default-basic" with empty configuration |
| `App.DefaultConfigIsComplete` | main.go:203-219 | the built-in configuration is a fixed point of the defaulting step and loads exactly one basic adapter |
| `App.Bootstrap` | main.go:54-63 | after bootstrap the registry holds at least one processor; a basic one is added exactly when loading produced none; otherwise the loaded ones stay as they are |

## Left out

- HTTP and SMTP transport (`client.Post`, `client.Do`, `smtp.SendMail`): foreign I/O. Each attempt is an abstract `Reply`. Request-creation failures in `http.NewRequest` and JSON encoding failures count as a send error.
- JSON encoding of the payloads and the HTML template of the e-mail body (processors/email.go:124-186): library behaviour. The body is an opaque string parameter.
- Timestamps from `time.Now()` in the Slack attachment and the PagerDuty payload: nondeterministic, dropped. The never-set PagerDuty fields (images, component, group, class) are not modelled either.
- Goroutines, the wait group and the read/write lock of the registry: concurrency is out of scope, and dispatch runs the adapters one after another.
- Logging: dropped. The Prometheus client library is replaced by the counter object.
- The 10-second HTTP client timeouts: with no clock in the model, a slow destination is just another reply.
- `Webhook.RequestHeaders`: does not model Go's canonicalisation of header names in `Header.Set`. A configured "content-type" therefore stays a separate key here, where Go would merge it with Content-Type.
- `Email.Outcome`: the SMTP reply codes are checked inside net/smtp and are not modelled. Any `Response` reply counts as "SendMail returned nil".
- The e-mail address string `host:port` is kept as the separate host and port fields.
- Integer widths: ports and status codes are unbounded integers. Go's 64-bit `int` cannot overflow for these values.
- YAML file reading and parsing in `LoadConfig` (config/config.go:33-42): foreign I/O and library. Only the defaulting that follows is modelled.
- main.go beyond `getDefaultConfig` and the bootstrap lines: routers, servers, signals and the HTML page are plumbing.
- handler/alertshandler.go and the metrics exposition endpoint: these are not part of this model.
