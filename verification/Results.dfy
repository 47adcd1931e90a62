/** Values that may be missing, and the ways a Go call can end. */
module Results {
  datatype Option<+T> = None | Some(value: T)

  /** A value, an error, or a panic. */
  datatype Result<+T> = Ok(value: T) | Err | Panic
}
