/** Optional values: the Python `None` and the SQL `NULL` of the bridge. */
module Wrappers {

  datatype Option<+T> = None | Some(value: T) {

    /** The value, or `default` when there is none. */
    function GetOr(default: T): T {
      match this
      case Some(v) => v
      case None => default
    }
  }

  /** Python truthiness of an optional string: `None` and `""` are false. */
  predicate TextTruthy(o: Option<string>) {
    o.Some? && o.value != ""
  }

  /** Python truthiness of an optional integer: `None` and `0` are false. */
  predicate IntTruthy(o: Option<int>) {
    o.Some? && o.value != 0
  }

  /** Python's `o or default` on an optional string. */
  function TextOr(o: Option<string>, default: string): (r: string)
    ensures TextTruthy(o) ==> r == o.value
    ensures !TextTruthy(o) ==> r == default
  {
    if TextTruthy(o) then o.value else default
  }
}
