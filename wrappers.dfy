/** Option and Result: the model's rendering of Rust's `Option<T>` and of the
    success-or-failure outcomes (a panic or a decoding error) of the source. */
module Wrappers {

  datatype Option<+T> = None | Some(value: T)

  datatype Result<+T, +E> = Success(value: T) | Failure(error: E)
}
