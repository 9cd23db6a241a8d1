/** The optional value used where the JavaScript source may hold `undefined`. */
module Wrappers {

  datatype Option<+T> = None | Some(value: T)
}
