/** The optional-value wrapper used throughout the model: `None` stands for
    JavaScript's `undefined` (an absent property, a missing element). */
module Wrappers {
  datatype Option<+T> = None | Some(value: T)
}
