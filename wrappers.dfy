/** Option and Result types shared by the model: Go's nil pointers and its
    (value, error) return pairs. */
module Wrappers {

  /** `None` stands for a Go nil (a nil pointer or a nil slice). */
  datatype Option<+T> = None | Some(value: T)

  /** A Go `(value, error)` pair: exactly one of the two is meaningful. The
      error is kept as the text Go's `err.Error()` would give. */
  datatype Result<+T> = Ok(value: T) | Err(msg: string)

  /** The unit value carried by an operation that only returns `error`. */
  type Unit = ()
}
