/** Optional values: the model's stand-in for C# `null` and for the
    "not found" result of a search. */
module Wrappers {

  datatype Option<+T> = None | Some(value: T)
}
