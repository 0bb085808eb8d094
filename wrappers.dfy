/** The null-or-value results of the vehicle and fleet operations. */
module Wrappers {

  /** `None` plays the role of a null pointer returned by a failed lookup or release. */
  datatype Option<+T> = None | Some(value: T)
}
