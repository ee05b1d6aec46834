/** How the Agent classifies the Relay's answers. */
module RelayTransport {
  /** An answer of the Relay: decoded, refused with a status of 400 or more, lost, or not JSON. */
  datatype Answer = Decoded | Refused(status: int) | Lost | Malformed

  /** Refusals that are worth repeating. */
  predicate Retryable(status: int) {
    status in {408, 425, 429} || status >= 500
  }

  /** Answers after which a queued item has left the outbox. */
  predicate Settles(a: Answer) {
    a.Decoded? || (a.Refused? && !Retryable(a.status))
  }
}
