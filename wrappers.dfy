/** A value that may be missing: JavaScript's `undefined`, or a call that threw. */
module Wrappers {

  datatype Option<+T> = None | Some(value: T)
}
