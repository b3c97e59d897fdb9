/** Failure-carrying results shared by every component. */
module Prelude {

  datatype Option<+T> = None | Some(value: T)

  /** The outcome of a fallible operation; the error text itself is never inspected. */
  datatype Result<+T> = Ok(value: T) | Err(error: string)
}
