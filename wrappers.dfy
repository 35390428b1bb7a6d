/** Option, standing for a Python operation that either yields a value or raises. */
module Wrappers {

  datatype Option<+T> = None | Some(value: T)
}
