/** The optional value used for every budget of a constraint: `None` plays the
    part of a nil pointer, i.e. "this budget is not checked". */
module Wrappers {

  datatype Option<+T> = None | Some(value: T)
}
