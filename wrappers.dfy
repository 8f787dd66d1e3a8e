/** The optional value used wherever the JavaScript code returns or accepts `null`. */
module Wrappers {

  datatype Option<+T> = None | Some(value: T)

}
