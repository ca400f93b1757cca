/** Wrappers shared by the whole model: `Option` for the source's optional
    (`?:`/`undefined`/`null`) values and `Result` for operations that throw. */
module Wrappers {

  datatype Option<+T> = None | Some(value: T)

  datatype Result<+R, +E> = Success(value: R) | Failure(error: E)
}
