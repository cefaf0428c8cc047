/** Optional values: the model's stand-in for `undefined`, `null` and optional record fields. */
module Wrappers {

  datatype Option<+T> = None | Some(value: T) {

    /** The value, or `default` when absent (JavaScript's `x || default` on an optional). */
    function GetOr(default: T): T {
      match this
      case Some(v) => v
      case None => default
    }
  }

  /** The fetched list, or the empty list when nothing was fetched (`data?.… || []`). */
  function Loaded<T>(data: Option<seq<T>>): seq<T> {
    data.GetOr([])
  }
}
