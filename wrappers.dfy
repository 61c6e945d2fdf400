/** A cell that may be empty: the null (NaN) of a data-frame column. */
module Wrappers {

  datatype Option<+T> = None | Some(value: T)
}
