/** The optional value used throughout the model: a header that may be absent,
    a library call that may throw, a response body that may be null. */
module Wrappers {

  datatype Option<+T> = None | Some(value: T)
}
