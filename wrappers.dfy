/** The Option and Result datatypes shared by the other modules. */
module Wrappers {

  /** A value that may be absent: `None` stands for `std::string::npos`, a number `std::stoi` rejects, ... */
  datatype Option<+T> = None | Some(value: T)

  /** The outcome of an operation that may throw. */
  datatype Result<+T, +E> = Success(value: T) | Failure(error: E)
}
