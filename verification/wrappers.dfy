/** Option and Result: the model's stand-ins for Java's `null` and for thrown exceptions. */
module Wrappers {

  /** `None` plays the part of a Java `null` reference. */
  datatype Option<+T> = None | Some(value: T)

  /** `Err` plays the part of an exception thrown instead of returning. */
  datatype Result<+R, +E> = Ok(value: R) | Err(error: E)
}
