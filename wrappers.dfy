/** The optional value used where the generator either finds something or silently gives up. */
module Wrappers {
  datatype Option<T> = None | Some(value: T)
}
