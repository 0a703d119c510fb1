/** Option and Result values, and the Python exceptions the handlers can raise. */
module Wrappers {

  datatype Option<+T> = None | Some(value: T)

  /** The Python exception classes that matter to the relay bot's control flow. */
  datatype Exception =
    | UnboundLocalError   // a local read before assignment
    | KeyError            // a missing dictionary key
    | ValueError          // int() of a non-numeral
    | AttributeError      // a method called on None (an unset environment variable)
    | DuplicateKeyError   // an insert rejected by a unique index

  /** The value a Python expression produces, or the exception it raises. */
  datatype Result<+T> = Ok(value: T) | Err(error: Exception)
}
