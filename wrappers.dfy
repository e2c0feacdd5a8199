/** Optional values: JavaScript's `undefined` is modelled as None. */
module Wrappers {
  datatype Option<+T> = None | Some(value: T)
}
