/** The optional value used wherever the source holds something that may be `undefined`. */
module Wrappers {

  datatype Option<+T> = None | Some(value: T)
}
