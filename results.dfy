/// Outcomes of fallible operations: Rust's `Option` and `Result<_, String>`.
module Results {

  datatype Option<+T> = None | Some(value: T)

  /** `Err` carries the message the source formats (or the panic it stands for). */
  datatype Result<+T> = Ok(value: T) | Err(error: string)
}
