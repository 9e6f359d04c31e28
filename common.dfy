/** Types shared by the dispatch screens. */
module Common {

  /** A value that may be absent (a TypeScript `T | null`). */
  datatype Option<+T> = None | Some(value: T)

  /** Triage priority of an emergency case. */
  datatype Priority = Critical | Urgent | Standard

  /** The status colour a style lookup selects (bg-status-success, -warning,
      -critical, -info, or bg-muted); the remaining class names are styling. */
  datatype Tone = SuccessTone | WarningTone | CriticalTone | InfoTone | MutedTone
}
