/** Optional values and success-or-error results, standing in for dictionary
    lookups that may find no key and for exceptions. */
module Wrappers {

  /** A dictionary lookup: the key is absent (`None`) or present with a value. */
  datatype Option<+T> = None | Some(value: T) {

    /** The value if present, otherwise `default`, like Python's `dict.get(key, default)`. */
    function GetOr(default: T): T
    {
      match this
      case Some(v) => v
      case None => default
    }
  }

  /** The value computed, or the error that stopped the computation. */
  datatype Result<+R, +E> = Ok(value: R) | Err(error: E)
}
