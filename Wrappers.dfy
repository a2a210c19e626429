/** The optional value used for every step that can fail (a rejected promise, a thrown error). */
module Wrappers {

  datatype Option<+T> = None | Some(value: T)
}
