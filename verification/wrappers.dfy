/** Optional values: the model's stand-in for a C# null reference or a failed call. */
module Wrappers {

  datatype Option<+T> = None | Some(value: T)

}
