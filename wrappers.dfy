/** An optional value, standing for C++'s std::optional. */
module Wrappers {

  datatype Option<+T> = None | Some(value: T)
}
