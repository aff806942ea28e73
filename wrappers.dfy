/** Optional values and success-or-failure results, shared by every module of the model. */
module Wrappers {

  /** A value that may be absent: Java's `null`, TypeScript's `null`/`undefined`. */
  datatype Option<+T> = None | Some(value: T)

  /** The outcome of a call that may fail: a returned value or a thrown error. */
  datatype Result<+T, +E> = Ok(value: T) | Err(error: E)

  /** The value held by `m` at `k`, if any. */
  function Get<K, V>(m: map<K, V>, k: K): (r: Option<V>)
    ensures r.Some? <==> k in m
    ensures r.Some? ==> r.value == m[k]
  {
    if k in m then Some(m[k]) else None
  }
}
