/** Optional values and success/failure outcomes; a Rust `panic!` of the binding is an `Err`. */
module Results {

  datatype Option<+T> = None | Some(value: T)

  datatype Result<+T, +E> = Ok(value: T) | Err(error: E)
}
