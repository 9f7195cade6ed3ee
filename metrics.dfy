/** The process-wide counters, as one object passed to whoever bumps them. */
module Metrics {

  class Counters {
    var received: nat
    var processed: nat
    var errors: nat

    constructor ()
      ensures received == 0 && processed == 0 && errors == 0
    {
      received, processed, errors := 0, 0, 0;
    }

    /** `AlertsProcessed.Inc()` */
    method IncProcessed()
      modifies this
      ensures processed == old(processed) + 1
      ensures received == old(received) && errors == old(errors)
    {
      processed := processed + 1;
    }

    /** `AlertsProcessingErrors.Inc()` */
    method IncErrors()
      modifies this
      ensures errors == old(errors) + 1
      ensures received == old(received) && processed == old(processed)
    {
      errors := errors + 1;
    }
  }
}
