/** Optional values (Java's nullable references and `Optional`) and results
    (a value or the exception an operation throws). */
module Wrappers {

  /** `None` stands for Java's `null` or an empty `Optional`. */
  datatype Option<+T> = None | Some(value: T)

  /** `Err` stands for an exception that the operation lets escape. */
  datatype Result<+T, +E> = Ok(value: T) | Err(error: E)
}
