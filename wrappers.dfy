/** Stand-ins for Java's null and for the exceptions the dialer code throws. */
module Wrappers {

  /** A Java reference that may be null: `None` is null. */
  datatype Option<+T> = None | Some(value: T)

  /** The runtime exceptions thrown by the modelled code. */
  datatype Exception =
    | IllegalStateException(message: string)
    | IllegalArgumentException(message: string)
    | IndexOutOfBoundsException(message: string)
    | NullPointerException

  /** The outcome of a Java call that either returns a value or throws. */
  datatype Result<+T> = Ok(value: T) | Throws(exception: Exception)
}
