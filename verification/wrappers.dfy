/** Optional values: a JavaScript `undefined` is `None`. */
module Wrappers {

  datatype Option<+T> = None | Some(value: T)
}
