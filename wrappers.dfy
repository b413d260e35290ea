/** Optional values, standing for the source's nullable state (`null` vs. a value). */
module Wrappers {
  datatype Option<+T> = None | Some(value: T)
}
