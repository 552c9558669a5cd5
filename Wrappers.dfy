/** The optional value the page uses wherever JavaScript yields `undefined`. */
module Wrappers {

  datatype Option<+T> = None | Some(value: T)
}
