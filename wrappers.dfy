/** Option and Result values for the source's null fields, missing records and
    thrown exceptions. */
module Wrappers {

  datatype Option<+T> = None | Some(value: T) {
    /** The value, or `default` when absent (the `x || default` and
        `orElse` idioms of the source). */
    function GetOr(default: T): T {
      match this
      case Some(v) => v
      case None => default
    }
  }

  /** `Err` carries the message of the exception the source throws or the error
      body it returns. */
  datatype Result<+T> = Ok(value: T) | Err(message: string)
}
