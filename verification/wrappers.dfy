/** Failure-compatible wrappers used throughout the model: `Option` stands for a
    Java reference that may be null (or a protobuf field left unset), `Result`
    for a call that may end in an exception instead of a value. */
module Wrappers {

  datatype Option<+T> = None | Some(value: T)

  datatype Result<+R, +E> = Success(value: R) | Failure(error: E)
}
