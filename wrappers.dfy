/** Small value wrappers shared by the model. */
module Wrappers {

  /** The result of a query that may fail: `None` is a failed call. */
  datatype Option<+T> = None | Some(value: T)
}
