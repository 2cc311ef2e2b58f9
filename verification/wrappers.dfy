/** Option and Result, used where the widgets return "nothing" or throw. */
module Wrappers {

  datatype Option<+T> = None | Some(value: T)

  /** `Err` stands for a Java exception thrown by the widget. */
  datatype Result<+T, +E> = Ok(value: T) | Err(error: E)
}
