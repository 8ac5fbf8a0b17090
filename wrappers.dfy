/** Optional values, used where the application keeps `null` in a slot. */
module Wrappers {

  datatype Option<+T> = None | Some(value: T)

}
