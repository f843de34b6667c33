/** The two-way optional value used for every nullable column and missing row. */
module Wrappers {

  datatype Option<+T> = None | Some(value: T)
}
