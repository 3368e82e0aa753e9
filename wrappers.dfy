/** Optional values, standing for the C# null reference where the model needs one. */
module Wrappers {

  datatype Option<+T> = None | Some(value: T)
}
