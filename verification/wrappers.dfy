/** Optional values, results and outcomes: what a collaborator returns or throws. */
module Wrappers {

  /** An optional value; `None` is an absent value. */
  datatype Option<+T> = None | Some(value: T)

  /** A value, or the error a call threw. */
  datatype Result<+R, +E> = Success(value: R) | Failure(error: E)

  /** The outcome of a call that returns nothing but may throw. */
  datatype Outcome<+E> = Pass | Fail(error: E)

  /** Map lookup that reports a missing key as `None` (`Map.get`). */
  function Get<K, V>(m: map<K, V>, k: K): Option<V>
  {
    if k in m then Some(m[k]) else None
  }
}
