/** Results and faults shared by the other modules. */
module Wrappers {

  datatype Option<+T> = None | Some(value: T)

  datatype Result<+T, +E> = Success(value: T) | Failure(error: E)

  /** How a durable write turns out: done, failed before anything was stored, or failed after. */
  datatype Fault = Fine | LostBeforeWrite | FailedAfterWrite

  /** Adds an error to those collected so far, if the fault is there. */
  method Report<E>(errors: set<E>, fault: bool, e: E) returns (r: set<E>)
    ensures r == if fault then errors + {e} else errors
  {
    r := if fault then errors + {e} else errors;
  }
}
