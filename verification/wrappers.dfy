/** Optional values: the model's stand-in for a double that may be NaN. */
module Wrappers {

  /** `None` plays the part of `double.NaN`; `Some(v)` is an ordinary number. */
  datatype Option<+T> = None | Some(value: T)
}
