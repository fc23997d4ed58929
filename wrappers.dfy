/** Rust's `Option<T>`, used for the optional notification thresholds. */
module Wrappers {

  datatype Option<+T> = None | Some(value: T)

}
