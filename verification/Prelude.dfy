/** The optional value used by every model of this project. */
module Prelude {
  datatype Option<+T> = None | Some(value: T)
}
