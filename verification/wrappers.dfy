/** Failure-carrying values used where the Python code returns None or raises. */
module Wrappers {

  datatype Option<+T> = None | Some(value: T)

  /** Python exceptions that the modelled operations can raise. */
  datatype PyError =
    | ValueError   // int() of a string that is not an integer literal
    | IndexError   // list index out of range
    | KeyError     // dict lookup of a missing key

  datatype Result<+T> = Success(value: T) | Failure(error: PyError)
}
