/** Optional values, results and the Python truthiness of optional strings. */
module Basics {

  /** A value that may be absent (Python's `Optional[T]`, `None` when absent). */
  datatype Option<+T> = None | Some(value: T)

  /** The outcome of an operation that may raise: a value or an error. */
  datatype Result<+T, +E> = Success(value: T) | Failure(error: E)

  /** Python truthiness of an `Optional[str]`: present and non-empty. */
  predicate Truthy(o: Option<string>)
  {
    o.Some? && |o.value| > 0
  }

  /** Python's `x or None` for a collection: an empty one becomes `None`. */
  function NonEmptyOrNone<T>(xs: seq<T>): (r: Option<seq<T>>)
    ensures r.None? <==> |xs| == 0
    ensures r.Some? ==> r.value == xs
  {
    if |xs| == 0 then None else Some(xs)
  }

  /** `NonEmptyOrNone` for maps (`metadata or None`). */
  function NonEmptyMapOrNone<K, V>(m: map<K, V>): (r: Option<map<K, V>>)
    ensures r.None? <==> |m| == 0
    ensures r.Some? ==> r.value == m
  {
    if |m| == 0 then None else Some(m)
  }
}
