/** Optional values: a store read of a missing key yields `None` (JavaScript `null`). */
module Wrappers {

  datatype Option<+T> = None | Some(value: T)

}
