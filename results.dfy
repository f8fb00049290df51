/** Option and Result values used where the hub's code returns null or throws. */
module Results {

  datatype Option<T> = None | Some(value: T)

  /** The outcome of a hub method that either returns a value or throws. */
  datatype Result<T, E> = Ok(value: T) | Err(error: E)
}
