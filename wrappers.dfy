/** Optional values: the model's rendering of `undefined`/`null` and of optional fields. */
module Wrappers {

  datatype Option<+T> = None | Some(value: T)
}
