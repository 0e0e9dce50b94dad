/** The optional values of the model: a JavaScript value that may be
    `undefined`, `null` or absent is an `Option`. */
module Wrappers {

  datatype Option<+T> = None | Some(value: T)
}
