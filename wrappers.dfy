/** The optional value used for the source's `number | null` fields. */
module Wrappers {

  datatype Option<+T> = None | Some(value: T)
}
