/** Optional values: a nullable database column, or Python's `None`. */
module Wrappers {

  datatype Option<+T> = None | Some(value: T)
}
