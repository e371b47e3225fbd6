/** Optional values: a JavaScript `null`/`undefined` or a thrown parse, as opposed to a value. */
module Wrappers {

  datatype Option<+T> = None | Some(value: T)
}
