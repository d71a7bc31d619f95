/** A `float` sensor reading that may be NaN is an `Option<real>`: `None` is
    the NaN a failed read produces, `Some(v)` a real measurement. The same type
    marks a lookup that can miss when a document is read back. */
module Wrappers {

  datatype Option<+T> = None | Some(value: T) {

    // The three members below let `:-` stop at the first missing value.

    predicate IsFailure() {
      None?
    }

    function PropagateFailure<U>(): Option<U>
      requires None?
    {
      None
    }

    function Extract(): T
      requires Some?
    {
      value
    }
  }
}
