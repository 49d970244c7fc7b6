/** Optional values, standing for Python's `Optional[...]` and for results that may be `None`. */
module Wrappers {
  datatype Option<+T> = None | Some(value: T)
}
