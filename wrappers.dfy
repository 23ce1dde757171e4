/** Error-carrying results shared by the two registries. Both registries report
    misuse by throwing an Error whose message is a fixed string; here that is a
    value the operation returns. */
module Wrappers {

  /** The outcome of an operation that returns nothing on success. */
  datatype Outcome = Pass | Fail(error: string)

  /** The result of a computation that either yields a value or fails with a message. */
  datatype Result<T> = Ok(value: T) | Err(error: string)
}
