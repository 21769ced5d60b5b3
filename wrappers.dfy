/** The optional value used for the hook's nullable state (`T | null`). */
module Wrappers {

  datatype Option<+T> = None | Some(value: T)
}
