/** Optional values, standing for Python's `None` where the source accepts it. */
module Wrappers {
  datatype Option<+T> = None | Some(value: T)

  /** A missing list counts as the empty list (the source's `x or []`). */
  function OrEmpty<T>(o: Option<seq<T>>): seq<T>
  {
    if o.Some? then o.value else []
  }
}
