/** Failure-carrying values shared by the clojog model: `Option` stands for
    a Java reference that may be null, `Result` for a call that either
    returns normally or throws one of the library's exceptions. */
module Wrappers {

  datatype Option<+T> = None | Some(value: T)

  datatype Result<+R, +E> = Success(value: R) | Failure(error: E)
}
