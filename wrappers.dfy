/** The result and option types the rest of the model uses, shaped like Rust's. */
module Wrappers {

  datatype Result<T, E> = Ok(value: T) | Err(error: E)

  datatype Option<T> = None | Some(value: T)
}
