/** Optional values: `None` stands for a call that raises in the original program. */
module Wrappers {
  datatype Option<+T> = None | Some(value: T)
}
