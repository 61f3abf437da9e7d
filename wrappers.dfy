/** The optional value used wherever the source has `null`/`undefined`
    or an `Array.prototype.find` that may miss. */
module Wrappers {
  datatype Option<+T> = None | Some(value: T)
}
