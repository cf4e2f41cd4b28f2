/** A value that may be absent: a failed remote call, a Python `None`, or a local variable not yet bound. */
module Wrappers {
  datatype Option<+T> = None | Some(value: T)
}
