/** The optional-value datatype used for lookups that may find nothing. */
module Wrappers {

  /** `Some(value)` when a lookup succeeded, `None` when it found nothing. */
  datatype Option<+T> = None | Some(value: T)
}
