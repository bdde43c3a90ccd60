/** An optional value: the model's stand-in for "emitted nothing" and for a failed parse. */
module Wrappers {

  datatype Option<+T> = None | Some(value: T)
}
