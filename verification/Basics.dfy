/** Small shared datatypes. */
module Basics {

  datatype Option<+T> = None | Some(value: T)

  /** Seconds on the operator's clock. */
  type Time = int
}
