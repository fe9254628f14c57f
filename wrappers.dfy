/** Optional values: JavaScript's `string | null` and optional object members. */
module Wrappers {
  datatype Option<+T> = None | Some(value: T)
}
