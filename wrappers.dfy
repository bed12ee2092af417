/** The optional value used wherever the source keeps `null` or `undefined`. */
module Wrappers {

  datatype Option<+T> = None | Some(value: T)
}
