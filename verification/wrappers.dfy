/** The optional value returned by the abstract expression evaluator. */
module Wrappers {

  datatype Option<+T> = None | Some(value: T)
}
