/** Small failure-carrying datatypes shared by the other modules. */
module Wrappers {

  /** An optional value: a response that may be missing, a date that may be null. */
  datatype Option<+T> = None | Some(value: T)
}
