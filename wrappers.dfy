/** The optional value used across the model: pandas' NaN and Python's None both become None. */
module Wrappers {

  datatype Option<+T> = None | Some(value: T)
}
