/** Option, Result and Outcome: the model's stand-ins for Java's null and for thrown exceptions. */
module Wrappers {

  /** A value that may be absent: `None` plays the part of a Java `null`. */
  datatype Option<+T> = None | Some(value: T)

  /** Either a value or the exception a call raised instead. */
  datatype Result<+R, +E> = Success(value: R) | Failure(error: E)

  /** The outcome of a `void` call: it returned normally or it raised `error`. */
  datatype Outcome<+E> = Pass | Fail(error: E)
}
