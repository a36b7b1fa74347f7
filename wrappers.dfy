/** Optional values, standing for Go's nil-able pointers and "comma ok" results. */
module Wrappers {

  datatype Option<+T> = None | Some(value: T)
}
