/** Failure-carrying results, used wherever the runtime throws. */
module Wrappers {

  /** Ok(value) when an operation returns normally, Err(error) when it throws. */
  datatype Result<+T> = Ok(value: T) | Err(error: string)

  datatype Option<+T> = None | Some(value: T)

  /** The outcome of an operation that returns nothing: it completes, or throws. */
  datatype Outcome = Pass | Fail(error: string)
}
