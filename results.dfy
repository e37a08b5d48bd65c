/** Definitions shared by the model: a missing value, a value or an error,
    and the row count a `LIMIT` lets through. */
module Results {

  datatype Option<+T> = None | Some(value: T)

  datatype Result<+T, +E> = Ok(value: T) | Err(error: E)

  /** How many rows `LIMIT limit` lets through out of `n`. */
  function Min(limit: nat, n: nat): nat
  {
    if limit < n then limit else n
  }
}
