/** Optional values: Kotlin's nullable `T?` (None stands for null). */
module Wrappers {
  datatype Option<+T> = None | Some(value: T)
}
