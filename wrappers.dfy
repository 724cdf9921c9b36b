/** Optional values: a DOM lookup that finds no element, a storage key that is
    not set, a status or an image that is `null`. */
module Wrappers {

  datatype Option<+T> = None | Some(value: T)
}
