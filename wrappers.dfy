/** Option and Result values, and the Python exceptions the crop-production
    code can raise, so that error paths are results rather than preconditions. */
module Wrappers {

  datatype Option<+T> = None | Some(value: T)

  datatype Result<+T, +E> = Success(value: T) | Failure(error: E) {
    predicate IsFailure() { Failure? }

    function PropagateFailure<U>(): Result<U, E>
      requires Failure?
    {
      Failure(error)
    }

    function Extract(): T
      requires Success?
    {
      value
    }
  }

  /** The exception kinds the modelled code raises. */
  datatype PyError =
    | KeyError(key: string)            // a dict lookup of a missing key
    | ValueError(reason: string)       // wrong number of fields to unpack, bad int literal, invalid argument
    | IndexError(reason: string)       // indexing an empty or too short sequence
    | AttributeError(name: string)     // a dataset variable that does not exist
    | TypeError(reason: string)        // an operation applied to the wrong kind of object
    | FileError(name: string)          // a file that cannot be opened

  type Outcome<T> = Result<T, PyError>
}
