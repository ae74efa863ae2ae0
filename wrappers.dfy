/** Optional values, for results the source expresses with NULL or "not set". */
module Wrappers {
  datatype Option<T> = None | Some(value: T)
}
