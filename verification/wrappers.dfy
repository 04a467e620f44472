/** The explicit absence that a lookup returns instead of `undefined`. */
module Wrappers {

  datatype Option<+T> = None | Some(value: T)
}
