/** A value that may be missing: JavaScript's `undefined` where the source reads an
    absent array element or property. */
module Wrappers {
  datatype Option<+T> = None | Some(value: T)
}
