/** Option and Result values for the operations that abort with log.Fatal or
    return an error in the original program. */
module Wrappers {

  datatype Option<+T> = None | Some(value: T)

  datatype Result<+T, +E> = Success(value: T) | Failure(error: E)
}
