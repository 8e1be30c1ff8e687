/** Option, for reads that may find nothing (`null` or `undefined` in the application). */
module Wrappers {

  datatype Option<+T> = None | Some(value: T) {

    predicate IsFailure() {
      None?
    }

    function PropagateFailure<U>(): Option<U>
      requires None?
    {
      None
    }

    function Extract(): T
      requires Some?
    {
      value
    }

    /** `x || fallback` for a value that is either present or nullish. */
    function GetOr(fallback: T): T {
      if Some? then value else fallback
    }
  }
}
