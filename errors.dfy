/** Values standing for the JavaScript `null`/`undefined`, for a thrown `Error`
    and for the outcome of an operation that either completes or throws. */
module Errors {

  /** An optional value: `None` is an absent field or a `null` lookup result. */
  datatype Option<+T> = None | Some(value: T)

  /** A plain `Error` object: all that callers ever see of it is its message. */
  datatype Error = Error(message: string)

  /** The outcome of an operation that returns a value or throws an `Error`. */
  datatype Result<+T> = Ok(value: T) | Err(error: Error)

  /** The outcome of an operation that returns nothing or throws an `Error`. */
  datatype Outcome = Pass | Fail(error: Error)
}
