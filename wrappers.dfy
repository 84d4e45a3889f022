/** Optional values, used where the Go code has a nil pointer or a failed parse. */
module Wrappers {

  datatype Option<+T> = None | Some(value: T)
}
