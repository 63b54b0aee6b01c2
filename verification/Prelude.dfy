/** Types shared by every module of the model. */
module Prelude {

  /** A reference, map lookup or API read that may be absent. */
  datatype Option<+T> = None | Some(value: T)

  /** Seconds on the operator's clock. */
  type Time = int
}
