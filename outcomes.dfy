/** Outcomes of the calls the views make into the hosted client. */
module Outcomes {

  /** What an awaited call into the hosted client settled with: the value it
      resolved with, or a rejection (the views only log the error, so its
      contents are not kept). */
  datatype Result<+T> = Ok(value: T) | Failed

  /** A field of an external record that may be absent (`undefined`). */
  datatype Option<+T> = None | Some(value: T)
}
