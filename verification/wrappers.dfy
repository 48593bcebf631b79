/** Small value wrappers shared by every model. */
module Wrappers {

  /** An optional value: a field that may be unset (the ORM's `False`). */
  datatype Option<+T> = None | Some(value: T)

  /** The result of a validation or of an action that may raise: `Fail` carries the
      kind of `ValidationError` the record's model raises, and a failing write changes nothing. */
  datatype Outcome<+E> = Pass | Fail(error: E)
}
