/** Optional values: a nullable column, an absent row, an optional request field. */
module Wrappers {

  datatype Option<+T> = None | Some(value: T)
}
