/** Optional values: a DOM attribute, a stored setting or a list entry that may be absent. */
module Wrappers {

  datatype Option<+T> = None | Some(value: T)
}
