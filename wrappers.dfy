/** The nullable result of a store lookup, as an explicit datatype. */
module Wrappers {

  datatype Option<+T> = None | Some(value: T)

}
