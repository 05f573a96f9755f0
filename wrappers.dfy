/** Optional values: Python's `Optional[str]`, where `None` stands for "no value". */
module Wrappers {
  datatype Option<+T> = None | Some(value: T)
}
