/** Optional values: Swift's `T?` (a `nil`-able value). */
module Wrappers {

  datatype Option<+T> = None | Some(value: T)
}
