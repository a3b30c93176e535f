/** A value that may be missing: PHP's `null`/`false` for "no such part". */
module Wrappers {
  datatype Option<+T> = None | Some(value: T)
}
