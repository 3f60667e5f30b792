/** Optional values: `None` stands for an absent (or `undefined`) JavaScript field. */
module Wrappers {
  datatype Option<+T> = None | Some(value: T)
}
