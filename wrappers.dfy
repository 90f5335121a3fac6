/** Optional values: an empty form field, a missing catalogue entry, a price that does not parse. */
module Wrappers {

  datatype Option<+T> = None | Some(value: T)
}
