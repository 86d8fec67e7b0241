/** The optional value the application writes as `null` or a missing field. */
module Wrappers {

  datatype Option<+T> = None | Some(value: T)
}
