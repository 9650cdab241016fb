/**
 * Small wrappers for the three ways a step of the client can end:
 * a value that may instead be a panic (an `unwrap()` on `None`), the
 * result of a foreign decoder, and the end of a state-changing step.
 */
module Outcomes {

  /** An optional column or argument (Rust's `Option`). */
  datatype Option<T> = None | Some(value: T) {
    /** The value, or `default` when absent (`unwrap_or`). */
    function GetOr(default: T): T {
      if Some? then value else default
    }
  }

  /** A value computed by code that may `unwrap()` an absent option and panic. */
  datatype Checked<T> = Ok(value: T) | Panic

  /** What a foreign decoder (serde_json) made of a text: the decoded value or a parse error. */
  datatype Parsed<T> = Parsed(value: T) | ParseError

  /** How a step that changes state ended: normally, or by a panic that aborts the process. */
  datatype Outcome = Completed | Panicked(reason: string)
}
