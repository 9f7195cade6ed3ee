/** What the outside world answers to one delivery attempt, and what an
    adapter makes of it. */
module Transport {

  /** The answer to one send: an HTTP status code (for SMTP: the mail was
      accepted), a transport or encoding error, or a runtime fault raised
      while the adapter was running. */
  datatype Reply = Response(code: int) | SendError | Panic

  /** The effect of one `Process` call: delivered (the processed counter is
      bumped), a transmission error (the error counter is bumped), a fault
      recovered by the registry (no counter), or log-only handling (no counter). */
  datatype Outcome = Delivered | TxError | Fault | Logged
}
