/** Optional values: JavaScript `undefined` and Python `None` become `None`. */
module Wrappers {
  datatype Option<+T> = None | Some(value: T)
}
