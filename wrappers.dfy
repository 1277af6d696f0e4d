/** Failure-carrying results shared by the geodesy modules. */
module Wrappers {

  /** A value, or the exception the Java code would throw instead of returning it. */
  datatype Result<+T, +E> = Success(value: T) | Failure(error: E)
}
