/** Shared vocabulary: Go's `byte` and the two failure-carrying wrappers. */
module Base {

  /** Go's `byte`: eight bits with wrap-around arithmetic and bitwise operators. */
  type byte = bv8

  datatype Option<+T> = None | Some(value: T)

  /** A Go `(value, error)` pair in which exactly one side is meaningful. */
  datatype Result<+T, +E> = Ok(value: T) | Err(error: E)
}
