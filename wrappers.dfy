/** Optional values and results with an error, as the model uses them for absent
    dictionary entries and for the exceptions the attention module raises. */
module Wrappers {

  datatype Option<T> = None | Some(value: T)

  datatype Result<T, E> = Ok(value: T) | Err(error: E)

  /** The first of two optional values that is present. */
  function Or<T>(a: Option<T>, b: Option<T>): Option<T>
  {
    if a.Some? then a else b
  }

  /** The value held, or `[]` when there is none: an absent cache entry reads as an empty history. */
  function OrEmpty<T>(o: Option<seq<T>>): seq<T>
  {
    if o.Some? then o.value else []
  }
}
