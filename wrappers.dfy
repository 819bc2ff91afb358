/** Small failure-carrying datatypes and constants shared by the other modules. */
module Wrappers {

  /** A value that may be absent (a JavaScript `undefined` field or a missing upload). */
  datatype Option<+T> = None | Some(value: T)

  /** The outcome of an operation the model does not look inside (a database write or
      query): it either succeeds or fails with the error's `message` text. */
  datatype Outcome = Pass | Fail(error: string)

  /** The HTTP status both routes answer with when the store fails. */
  const InternalServerError: nat := 500
}
