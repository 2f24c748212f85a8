/** Failure-carrying wrappers shared by the model: `Option` stands for Python's
    `Optional[...]` (a value or `None`), `Result` for a computation that either
    returns a value or raises an exception described by its error value. */
module Wrappers {

  datatype Option<+T> = None | Some(value: T)

  datatype Result<+R, +E> = Success(value: R) | Failure(error: E)
}
