/** The "no value" result that the point primitives return on a dimension mismatch. */
module Wrappers {

  datatype Option<+T> = None | Some(value: T)
}
