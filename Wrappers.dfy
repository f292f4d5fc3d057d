/** An optional value: `None` stands for a null reference. */
module Wrappers {

  datatype Option<+T> = None | Some(value: T)
}
