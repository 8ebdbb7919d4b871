/** The optional-value wrapper used where JavaScript would yield `undefined`. */
module Wrappers {

  datatype Option<+T> = None | Some(value: T)
}
