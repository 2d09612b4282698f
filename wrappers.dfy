/** Optional values: a Go `nil`, a missing map entry, or a failed parse. */
module Wrappers {

  datatype Option<+T> = None | Some(value: T)
}
