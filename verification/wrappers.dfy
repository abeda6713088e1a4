/** The optional-value wrapper used for absent JavaScript properties. */
module Wrappers {

  /** `None` stands for a property that is absent (`undefined`). */
  datatype Option<+T> = None | Some(value: T)
}
