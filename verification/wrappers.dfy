/** Optional values, standing in for JavaScript's `undefined` and for "nothing was thrown". */
module Wrappers {

  datatype Option<+T> = None | Some(value: T)
}
