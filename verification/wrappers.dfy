// Optional values and success/failure results, used wherever the Python code
// returns None, raises, or returns an error record.
module Wrappers {

  datatype Option<+T> = None | Some(value: T)

  datatype Result<+T, +E> = Success(value: T) | Failure(error: E)
}
