/** Optional values: a JavaScript `undefined`/`null`, or a call that did not produce a value. */
module Wrappers {

  datatype Option<+T> = None | Some(value: T)
}
