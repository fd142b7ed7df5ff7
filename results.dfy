/** Option and Result values standing for Rust's `Option<T>` and `anyhow::Result<T>`. */
module Results {

  datatype Option<+T> = None | Some(value: T)

  datatype Result<+T, +E> = Ok(value: T) | Err(error: E)
}
