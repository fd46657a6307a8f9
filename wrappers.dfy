/** The absence signal used by the stores: `undefined` in the source. */
module Wrappers {

  datatype Option<+T> = None | Some(value: T)
}
