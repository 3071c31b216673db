/** Small value wrappers shared by the modules of the model. */
module Wrappers {

  /** An optional value: JavaScript's `undefined`/`null` and Python's `None` become `None`. */
  datatype Option<+T> = None | Some(value: T)
}
