/** The optional-value datatype used for `find` results, method bodies and fix-it hints. */
module Wrappers {

  datatype Option<+T> = None | Some(value: T)
}
