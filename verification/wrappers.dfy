/** Option and Outcome datatypes used throughout the model. */
module Wrappers {

  datatype Option<+T> = None | Some(value: T) {
    function GetOr(default: T): T {
      match this
      case Some(v) => v
      case None => default
    }
  }

  /** The outcome of a Python script step: a value, a `sys.exit(code)`, or an uncaught exception. */
  datatype Outcome<+T> = Ok(value: T) | Exit(code: int) | Crash
}
