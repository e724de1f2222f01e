/** The absent-or-present value that the store's lookups return. */
module Wrappers {

  /** `None` stands for Python's `None` returned by a lookup that found nothing. */
  datatype Option<+T> = None | Some(value: T)
}
