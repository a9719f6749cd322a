/** Optional values: `None` stands for the .NET `null` reference. */
module Wrappers {

  datatype Option<+T> = None | Some(value: T)
}
