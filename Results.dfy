/** Small failure-carrying datatypes shared by the whole model. */
module Results {

  /** A value that may be missing: `null` from storage, an absent map key. */
  datatype Option<+T> = None | Some(value: T)

  /** A completed operation or the error it raised (a rejected promise). */
  datatype Result<+T, +E> = Ok(value: T) | Err(error: E)
}
