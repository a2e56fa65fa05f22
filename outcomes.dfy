/** The error kinds the core raises, and the wrappers that carry them.
    Every exception of the simulator becomes an error value here; the
    message strings of the exception classes are dropped. */
module Outcomes {

  /** The exception classes thrown by the movement core. */
  datatype Error =
    | IllegalArgument   // IllegalArgumentException: bad command, bad symbol, negative coordinate, bad room
    | OutOfBounds       // RobotOutOfBoundsException
    | Collision         // RobotCollisionException

  /** A value that may be absent (a Java `null`, or a void call that may throw). */
  datatype Option<+T> = None | Some(value: T)

  /** A value, or the error that was thrown instead of returning it. */
  datatype Result<+T> = Ok(value: T) | Err(error: Error)
}
