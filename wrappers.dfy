/** Optional values: a JavaScript `null`, or a number that is not available. */
module Wrappers {

  datatype Option<+T> = None | Some(value: T)
}
