/** Optional values, for the lookups of the registry that can miss. */
module Wrappers {

  datatype Option<T> = None | Some(value: T)
}
