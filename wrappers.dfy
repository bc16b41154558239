/** Optional values and results with an error branch, used for Java's nullable
    fields and for the exceptions the registration throws. */
module Wrappers {

  /** A value that may be absent; `None` stands for Java's `null`. */
  datatype Option<+T> = None | Some(value: T)

  /** Either a value or the error the Java code would have thrown. */
  datatype Result<+R, +E> = Success(value: R) | Failure(error: E)
}
