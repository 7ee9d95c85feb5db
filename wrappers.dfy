/** Optional values and results, shared by every module of the model. */
module Wrappers {

  /** `None` stands for both `null` and `undefined` of the JavaScript source. */
  datatype Option<+T> = None | Some(value: T) {
    function GetOr(default: T): T {
      match this
      case Some(v) => v
      case None => default
    }
  }

  datatype Result<+T, +E> = Ok(value: T) | Err(error: E)

  /** JavaScript's `a ?? b`: the left operand unless it is nullish. */
  function Coalesce<T>(a: Option<T>, b: Option<T>): Option<T> {
    if a.Some? then a else b
  }
}
