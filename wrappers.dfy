/** The optional-value datatype used for absent filter keys and for values that
    JavaScript would compute as NaN. */
module Wrappers {

  datatype Option<+T> = None | Some(value: T)
}
