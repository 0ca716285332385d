/** `Option` and the result of a registration, shared by the other modules. */
module Wrappers {

  /** Rust's `Option`. */
  datatype Option<+T> = None | Some(value: T)

  /** The result of a registration: no value on success, as Rust's `Result<(), E>`. */
  datatype RegisterResult<+E> = Pass | Fail(error: E)
}
