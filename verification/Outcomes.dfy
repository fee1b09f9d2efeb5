module Outcomes {
  type Payload(==, !new)

  /** What awaiting one operand gave: its value or the exception it threw. */
  datatype Outcome = Value(v: Payload) | Error(e: Payload)
}
