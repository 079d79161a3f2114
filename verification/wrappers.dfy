/** Option and Result, the two failure-carrying shapes the macro's code is
    written with (`Option<T>` and `syn::Result<T>`). */
module Wrappers {

  datatype Option<+T> = None | Some(value: T)

  datatype Result<+T, +E> = Ok(value: T) | Err(error: E)
}
