/** Optional values: a JavaScript property that may be `undefined`, an
    environment variable that may be unset, a search result that may be -1. */
module Wrappers {

  datatype Option<+T> = None | Some(value: T)

  function Min(a: int, b: int): int {
    if a <= b then a else b
  }
}
