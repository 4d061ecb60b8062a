/** Option and Result, and the Python exception classes the modelled code raises. */
module Wrappers {

  datatype Option<+T> = None | Some(value: T) {
    /** The value, or `default` when there is none. */
    function GetOr(default: T): T {
      match this
      case Some(v) => v
      case None => default
    }
  }

  /** The exception classes raised by the modelled code. */
  datatype Error =
    | TypeError        // wrong type or wrong arguments
    | ValueError       // an unparseable date, float or schedule
    | InvalidOperation // decimal.InvalidOperation: the text is not a decimal literal
    | KeyError         // a missing dictionary key
    | IndexError       // an index out of range
    | AttributeError   // a missing attribute

  /** A value, or the exception raised instead of returning it. */
  datatype Result<+T> = Ok(value: T) | Err(error: Error)

  /** The completion of a statement that returns nothing: normally, or by raising. */
  datatype Outcome = Pass | Fail(error: Error)
}
