/** Optional values, standing for the code's nullable references. */
module Wrappers {

  datatype Option<+T> = None | Some(value: T)
}
