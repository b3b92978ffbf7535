/** Optional values: the model's reading of TypeScript's `null` and of an
    absent optional field. */
module Wrappers {

  datatype Option<+T> = None | Some(value: T) {

    /** The wrapped value, or `default` when there is none (JavaScript's `x || default`
        for an object-valued `x`, which is truthy exactly when it is present). */
    function GetOr(default: T): T
    {
      match this
      case Some(v) => v
      case None => default
    }
  }
}
