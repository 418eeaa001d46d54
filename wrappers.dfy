/** The optional value that stands for Python's `None` in the match record. */
module Wrappers {

  datatype Option<T> = None | Some(value: T) {

    /** Python's `d.get(key, default)` on an optional entry. */
    function GetOr(default: T): T
    {
      if Some? then value else default
    }
  }
}
