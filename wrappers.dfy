/** The optional-value datatype used where the components return `null`
    or render nothing. */
module Wrappers {

  datatype Option<+T> = None | Some(value: T)
}
