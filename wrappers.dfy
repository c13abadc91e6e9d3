/** Optional values: a `Step*` that may be `nullptr` is an `Option<Step>`. */
module Wrappers {
  datatype Option<+T> = None | Some(value: T)
}
