/** The optional value used wherever the Go code returns "found / not found". */
module Wrappers {

  datatype Option<+T> = None | Some(value: T)
}
