/** Option and Result values shared by every module of the model. */
module Wrappers {
  datatype Option<T> = None | Some(value: T)
  {
    function UnwrapOr(default: T): (r: T)
      ensures this.Some? ==> r == value
      ensures this.None? ==> r == default
    {
      match this
      case Some(v) => v
      case None => default
    }
  }

  /** The outcome of an operation that the source ends by raising an exception. */
  datatype Result<T, E> = Ok(value: T) | Err(error: E)

  /** An optional string that Python counts as true: present and not empty. */
  predicate Given(v: Option<string>)
  {
    v.Some? && v.value != []
  }

  /** Python's `a or b` on optional strings: `a` when given, otherwise `b`. */
  function OrElse(a: Option<string>, b: Option<string>): (r: Option<string>)
    ensures Given(a) ==> r == a
    ensures !Given(a) ==> r == b
  {
    if Given(a) then a else b
  }
}
