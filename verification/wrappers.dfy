/** The optional-value datatype shared by every module of the model. */
module Wrappers {

  /** `None` stands for Python's `None` or an absent dictionary entry. */
  datatype Option<+T> = None | Some(value: T)
}
