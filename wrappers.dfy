/** Optional values: `None` stands for a reference the scene leaves unassigned (C# null). */
module Wrappers {
  datatype Option<+T> = None | Some(value: T)
}
