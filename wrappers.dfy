/** An optional value and a success-or-error value. `None` stands for
    JavaScript's `undefined`, and `Failure` for an exception caught by a
    `catch` block, carrying its message. */
module Wrappers {

  datatype Option<+T> = None | Some(value: T)

  datatype Result<+T, +E> = Success(value: T) | Failure(error: E)
}
