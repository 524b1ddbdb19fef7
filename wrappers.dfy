/** Option type used for the source's "not found" / "-1" / NULL results. */
module Wrappers {

  datatype Option<+T> = None | Some(value: T)
}
