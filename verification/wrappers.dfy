/**
  Optional values. `IsFailure`, `PropagateFailure` and `Extract` let the schema parser read key
  after key with `:-`, stopping at the first failure as zod does; `GetOr` reads an undefined
  form field as a default.
*/
module Wrappers {

  /** `None` stands for JavaScript's `undefined` or for a failed parse. */
  datatype Option<+T> = None | Some(value: T) {

    predicate IsFailure() {
      None?
    }

    function PropagateFailure<U>(): Option<U>
      requires None?
    {
      None
    }

    function Extract(): T
      requires Some?
    {
      value
    }

    /** `value || default` for a value that is either undefined or a list. */
    function GetOr(default: T): T {
      match this
      case Some(v) => v
      case None => default
    }
  }
}
