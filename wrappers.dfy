/** A value that may be missing, as an optional property of a JavaScript object may be `undefined`. */
module Wrappers {

  datatype Option<+T> = None | Some(value: T)
}
