/** Optional values: the calculator's "no night rate" is `None`, which is not the same as `Some(0.0)`. */
module Wrappers {
  datatype Option<+T> = None | Some(value: T)
}
