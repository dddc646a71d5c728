/** Optional values: a missing ray hit, a missing pattern, a query that threw. */
module Wrappers {
  datatype Option<+T> = None | Some(value: T)
}
