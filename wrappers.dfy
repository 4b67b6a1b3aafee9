/** Optional values: a header that is either present with a value or absent (Ruby's nil). */
module Wrappers {

  datatype Option<+T> = None | Some(value: T)
}
