/** The optional values the JavaScript code expresses with `null`. */
module Wrappers {

  datatype Option<+T> = None | Some(value: T)
}
