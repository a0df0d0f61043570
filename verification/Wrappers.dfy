/** Failure-compatible result types shared by all modules. */
module Wrappers {
  datatype Option<+T> = None | Some(value: T)

  /** Success with a value, or the kind of C++ exception that was thrown. */
  datatype Result<+T> = Ok(value: T) | Err(error: Error)

  datatype Error =
    | InvalidArgument   // std::invalid_argument
    | OutOfRange        // std::out_of_range
    | RuntimeError      // std::runtime_error
}
