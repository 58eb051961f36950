/** The failure-aware result type shared by the models. */
module Wrappers {

  /** `None` stands for an operation of the source that panics instead of returning. */
  datatype Option<+T> = None | Some(value: T)
}
