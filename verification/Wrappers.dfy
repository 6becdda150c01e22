/** A nullable column or argument of the service. */
module Wrappers {
  datatype Option<+T> = None | Some(value: T) {
    function Or(default: T): T {
      if Some? then value else default
    }
  }

  /** The outcome of a request: its answer, or the HTTP error it is refused with. */
  datatype Result<+T, +E> = Ok(value: T) | Refused(error: E)
}
