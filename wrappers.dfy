/** Optional values: the model's stand-in for TypeScript's `T | null` and
    for JSON fields that may be missing. */
module Wrappers {

  datatype Option<+T> = None | Some(value: T)
}
