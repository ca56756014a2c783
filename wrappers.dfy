/** Optional values: a request field that JavaScript treats as absent, or a lookup that found nothing. */
module Wrappers {

  datatype Option<+T> = None | Some(value: T)
}
