/** Option and Result, and the Python exceptions that the modelled code can raise. */
module Wrappers {

  datatype Option<T> = None | Some(value: T) {
    /** Python's `x or default` when `x` may be `None`. */
    function GetOr(default: T): T {
      match this
      case Some(v) => v
      case None => default
    }
  }

  /** The class of the exception that a Python call ends with. */
  datatype PyError =
    | AttributeError   // a missing attribute or method
    | IndexError       // `random.choice` on an empty list
    | KeyError         // a missing dictionary key
    | TypeError        // item assignment on something that is not a dict
    | ZeroDivisionError

  /** A call that either returns a value or raises. */
  datatype Result<T> = Ok(value: T) | Err(error: PyError)
}
