/** The optional value used for "found / not found" and "parsed / NaN". */
module Wrappers {
  datatype Option<+T> = None | Some(value: T)
}
