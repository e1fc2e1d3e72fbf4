/** The usual optional-value datatype, used for a search that may find
    nothing and for a file that may be missing. */
module Wrappers {

  datatype Option<+T> = None | Some(value: T)
}
