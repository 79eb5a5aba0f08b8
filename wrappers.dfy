/** Optional values, standing for SQL NULL and for "no row". */
module Wrappers {
  datatype Option<+T> = None | Some(value: T)
}
