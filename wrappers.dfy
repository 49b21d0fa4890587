/** The optional value used wherever the scripts test a value for being present
    (an element that may be missing from the page, a dataset entry not yet set). */
module Wrappers {

  datatype Option<+T> = None | Some(value: T)
}
