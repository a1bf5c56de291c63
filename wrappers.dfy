/** Optional values, for the places where the source yields Python's None
    or raises instead of producing a value. */
module Wrappers {

  datatype Option<+T> = None | Some(value: T)
}
