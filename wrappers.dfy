/** Optional values: `None` stands for a missing or NaN number. */
module Wrappers {
  datatype Option<+T> = None | Some(value: T)
}
