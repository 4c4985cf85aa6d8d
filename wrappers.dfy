/** Optional values: a JavaScript `null` result, or a property that is not set. */
module Wrappers {

  datatype Option<+T> = None | Some(value: T)
}
