/** Optional values: `None` stands for a JavaScript field that is absent or `undefined`. */
module Wrappers {

  datatype Option<+T> = None | Some(value: T)
}
