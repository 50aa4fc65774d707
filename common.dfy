/// Small failure-carrying wrappers shared by the other modules: Rust's
/// `Option` and `Result`.
module Common {

  datatype Option<+T> = None | Some(value: T)

  datatype Result<+T, +E> = Ok(value: T) | Err(error: E)
}
