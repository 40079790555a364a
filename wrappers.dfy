/** Failure-compatible values shared by the model: an optional value, the
    Python exception kinds the core can raise, and a result that is either a
    value or one of those exceptions. */
module Wrappers {

  datatype Option<T> = None | Some(value: T)

  /** The exception classes the modelled code raises. */
  datatype Error =
    | IndexError          // numpy / list index out of range, empty-slice access
    | KeyError            // a dict lookup of a missing key
    | ValueError          // numpy.array_split with no sections, a negative dimension
    | UnboundLocalError   // a local read before any loop iteration assigned it
    | AttributeError      // `model.__name__` of a value that is not a function

  datatype Result<T> = Ok(value: T) | Err(error: Error)
}
