/** Small result types shared by every module of the model. */
module Wrappers {

  /** A value that may be absent (a Java reference that may be null). */
  datatype Option<T> = None | Some(value: T)

  /** A computation that either returns a value or raises an error. */
  datatype Result<T, E> = Success(value: T) | Failure(error: E)

  /** A call that either returns or blocks forever (a read on a queue that never fills). */
  datatype Outcome<T> = Done(value: T) | Blocked
}
