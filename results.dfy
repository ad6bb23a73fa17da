/**
 * Small success-or-failure wrappers shared by the other modules.
 */
module Results {

  datatype Option<+T> = None | Some(value: T)

  /** The settled value of a promise or of a call that may throw. */
  datatype Result<+T, +E> = Ok(value: T) | Err(error: E)
}
