/** Rust's `Option` and `Result`, shared by the whole model. */
module Results {

  /** An optional value, as Rust's `Option`. */
  datatype Option<+T> = None | Some(value: T)

  /** A value or an error description, as `anyhow::Result`; the error is kept as
      the text its `Display` implementation would print. */
  datatype Result<+T> = Ok(value: T) | Err(error: string)
}
