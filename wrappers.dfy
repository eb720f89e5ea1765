/** Optional values, standing in for std::optional in the firmware. */
module Wrappers {
  datatype Option<+T> = None | Some(value: T)
}
