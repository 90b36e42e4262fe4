/** Small value wrappers shared by the other modules. */
module Wrappers {

  /** An optional value; `None` stands for a nil pointer. */
  datatype Option<+T> = None | Some(value: T)
}
