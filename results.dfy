/** The failure kinds a plateau or a rover reports, and the wrappers that carry them.
    In the Python program each failure is an AssertionError with its own message;
    here each message becomes one constructor of `Error`. */
module Results {

  datatype Error =
    | InvalidDimension   // "The plateau dimensions must be positive."
    | OutOfBounds        // "cannot be placed outside" / "cannot move outside the plateau"
    | InvalidHeading     // "The rover heading input is invalid."
    | PositionOccupied   // "cannot be placed on" / "cannot move to a grid point occupied by another rover"
    | InvalidCommand     // "Invalid navigation string."

  datatype Option<+T> = None | Some(value: T)

  datatype Result<+T> = Ok(value: T) | Err(error: Error)

  /** The result of an operation that either completes or fails, with no value. */
  datatype Outcome = Pass | Fail(error: Error)
}
