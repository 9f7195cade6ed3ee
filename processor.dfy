/** The package-level alert processor: the same severity switch as the
    basic processor, written separately in the source. */
module Processor {
  import opened Alerts
  import BasicProcessor

  /** `ProcessAlert`. */
  function ProcessAlert(alert: Alert): (b: BasicProcessor.Branch)
    ensures "severity" !in alert.labels ==> b == BasicProcessor.NoSeverity
    ensures Get(alert.labels, "severity") == "critical" ==> b == BasicProcessor.Critical
    ensures Get(alert.labels, "severity") == "warning" ==> b == BasicProcessor.Warning
    ensures "severity" in alert.labels && alert.labels["severity"] !in {"critical", "warning"} ==>
      b == BasicProcessor.UnknownSeverity(alert.labels["severity"])
  {
    var labels := alert.labels;
    if "severity" !in labels then BasicProcessor.NoSeverity
    else if labels["severity"] == "critical" then BasicProcessor.Critical
    else if labels["severity"] == "warning" then BasicProcessor.Warning
    else BasicProcessor.UnknownSeverity(labels["severity"])
  }

  /** Both copies of the switch classify every alert alike. */
  lemma SameClassification(alert: Alert)
    ensures ProcessAlert(alert) == BasicProcessor.Process(alert)
  {
  }
}
