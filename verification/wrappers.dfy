/** Error-carrying results shared by every module of the model.
    A Go `error` is represented by its message text. */
module Wrappers {

  /** A value or the error that prevented computing it: Go's `(T, error)` pair
      where exactly one side is meaningful. */
  datatype Result<+T> = Ok(value: T) | Err(error: string)

  /** Go's bare `error` return: `nil` (Pass) or an error (Fail). */
  datatype Outcome = Pass | Fail(error: string)
}
