/** The log-only processor: a severity switch with no delivery. */
module BasicProcessor {
  import opened Alerts

  /** Which branch of the severity switch an alert takes. */
  datatype Branch = NoSeverity | Critical | Warning | UnknownSeverity(severity: string)

  /** `BasicProcessor.Process`: total over every labels map; a missing
      label returns early, "critical" and "warning" get their handlers,
      every other value (including "info" and "") is unknown. */
  function Process(alert: Alert): (b: Branch)
    ensures b == NoSeverity <==> "severity" !in alert.labels
    ensures b == Critical <==> "severity" in alert.labels && alert.labels["severity"] == "critical"
    ensures b == Warning <==> "severity" in alert.labels && alert.labels["severity"] == "warning"
    ensures b.UnknownSeverity? <==>
      "severity" in alert.labels && alert.labels["severity"] !in {"critical", "warning"}
    ensures b.UnknownSeverity? ==> b.severity == alert.labels["severity"]
  {
    if "severity" !in alert.labels then NoSeverity
    else
      match alert.labels["severity"]
      case "critical" => Critical
      case "warning" => Warning
      case other => UnknownSeverity(other)
  }
}
