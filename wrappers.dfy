/** The optional value shared by the script data and the widgets: TypeScript's
    `T | undefined` and `T | null` both become `Option<T>`. */
module Wrappers {

  datatype Option<+T> = None | Some(value: T) {

    /** `x ?? d` and, for values that are never falsy, `x || d`. */
    function GetOr(default: T): T {
      match this
      case Some(v) => v
      case None => default
    }
  }

  /** JavaScript's `x || d` on a `number | null`: null and 0 are falsy and
      give `d`; every other number is kept. */
  function NumberOr(x: Option<int>, d: int): (r: int)
    ensures x.Some? && x.value != 0 ==> r == x.value
    ensures x.Some? && x.value == 0 ==> r == d
    ensures x.None? ==> r == d
  {
    match x
    case Some(v) => if v != 0 then v else d
    case None => d
  }
}
