/** Optional values, standing in for Kotlin's nullable types (`String?`). */
module Wrappers {

  datatype Option<+T> = None | Some(value: T)
}
