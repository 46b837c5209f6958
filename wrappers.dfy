/** The optional-value datatype shared by every module: `None` stands for JavaScript's `undefined`. */
module Wrappers {
  datatype Option<T> = None | Some(value: T)
}
