/** The usual optional value, used where the Rust code has `Option`. */
module Wrappers {
  datatype Option<+T> = None | Some(value: T)
}
