/** The one alert record every adapter receives. */
module Alerts {

  /** One alert as posted by Alertmanager. Absent label and annotation maps
      are represented by empty maps; the timestamps, generator URL and
      fingerprint are opaque pass-through strings ("" when absent). */
  datatype Alert = Alert(
    status: string,
    labels: map<string, string>,
    annotations: map<string, string>,
    startsAt: string,
    endsAt: string,
    generatorURL: string,
    fingerprint: string)

  /** Go's `m[k]` on a `map[string]string`: the zero value "" for a missing key. */
  function Get(m: map<string, string>, k: string): (v: string)
    ensures k in m ==> v == m[k]
    ensures k !in m ==> v == ""
  {
    if k in m then m[k] else ""
  }
}
