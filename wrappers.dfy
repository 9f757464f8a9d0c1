/** Optional values: a JSON field that may be absent (Python's `dict.get` returning `None`). */
module Wrappers {

  datatype Option<+T> = None | Some(value: T)
}
