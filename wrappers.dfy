/** The optional value that Rust's `Option<T>` is. */
module Wrappers {

  datatype Option<+T> = None | Some(value: T)

}
