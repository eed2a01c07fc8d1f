/** A value that may be missing: a nil reference, an absent row, a failed lookup. */
module Wrappers {

  datatype Option<T> = None | Some(value: T)
}
