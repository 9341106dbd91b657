/** Outcomes of the wrapper operations. The wrappers report failure by throwing
    a C++ exception; here a failing call returns the exception instead. */
module Results {

  /** The two exception types the wrappers throw. */
  datatype Error =
    | RuntimeError(message: string)     // std::runtime_error
    | InvalidArgument(message: string)  // std::invalid_argument

  /** The result of a call that returns a value or throws. */
  datatype Result<T> = Success(value: T) | Failure(error: Error)

  /** The result of a `void` call that may throw. */
  datatype Outcome = Pass | Fail(error: Error)
}
