/** The optional values the camera controller reads: a camera's viewport and
    the primary window's cursor position may both be absent. */
module Wrappers {

  datatype Option<+T> = None | Some(value: T)
}
