/** Optional values: a JavaScript value that may be `undefined`, or a step that may throw. */
module Wrappers {

  datatype Option<+T> = None | Some(value: T)
}
