/** Optional values and fallible results, shared by every module. */
module Wrappers {

  datatype Option<T> = None | Some(value: T) {
    /** `Option::unwrap_or` */
    function UnwrapOr(default: T): T {
      if Some? then value else default
    }

    /** `Option::or`: this value when there is one, the other otherwise. */
    function Or(other: Option<T>): Option<T> {
      if Some? then this else other
    }
  }

  datatype Result<T, E> = Ok(value: T) | Err(error: E)
}
