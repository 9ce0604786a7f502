/** Optional values: the model's stand-in for a property or ref that may be
    `undefined` or `null`. */
module Wrappers {

  datatype Option<+T> = None | Some(value: T)
}
