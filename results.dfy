/** Failure-carrying values shared by the rotor, plugboard and machine modules. */
module Results {

  /** Either a constructed value or the reason construction failed. */
  datatype Result<+T, +E> = Ok(value: T) | Err(error: E)

  /** An optional value, used for an error that may or may not have occurred. */
  datatype Option<+T> = None | Some(value: T)
}
