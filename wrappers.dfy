/** Optional values: the model's stand-in for a pandas call that raises. */
module Wrappers {

  datatype Option<+T> = None | Some(value: T)
}
