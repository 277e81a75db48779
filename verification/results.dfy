/** Failure-compatible wrappers for the exceptions the rover code throws.
    Every `throw new Error(...)` of the model becomes an `Err` carrying one of
    the `Error` cases below, and `:-` propagates it the way an uncaught
    exception aborts the caller. */
module Results {

  /** The errors raised by the rover code, one case per distinct message. */
  datatype Error =
    | InvalidCommand
    | NegativeNumbers
    | MalformedRawLocation
    | MalformedLocation
    | MalformedCoordinates
    | UnsupportedOrientation

  datatype Option<+T> = None | Some(value: T)

  /** Either the value a call returns or the error it throws. */
  datatype Result<+T> = Ok(value: T) | Err(error: Error) {

    predicate IsFailure() {
      Err?
    }

    function PropagateFailure<U>(): Result<U>
      requires Err?
    {
      Err(error)
    }

    function Extract(): T
      requires Ok?
    {
      value
    }
  }
}
