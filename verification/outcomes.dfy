/**
  Values that stand for what the browser and the back end answer: an optional
  value, a success-or-error result, and the reply of a request whose body is
  not used.
 */
module Outcomes {

  datatype Option<+T> = None | Some(value: T)

  datatype Result<+R, +E> = Success(value: R) | Failure(error: E)

  /** How a remote request ended: resolved, or rejected with the message the screen shows. */
  datatype Reply = Ok | Failed(message: string)
}
