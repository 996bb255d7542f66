/** The one container the model shares between modules. */
module Wrappers {
  datatype Option<+T> = None | Some(value: T)
}
