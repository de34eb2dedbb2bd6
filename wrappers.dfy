/** Optional values: JavaScript's `null` for a mood, a question or a stored string. */
module Wrappers {
  datatype Option<+T> = None | Some(value: T)
}
