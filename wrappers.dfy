/** Optional values, results, and the two Python exceptions the charm can raise. */
module Wrappers {

  /** An optional value; `None` stands for Python's `None` or an absent key. */
  datatype Option<+T> = None | Some(value: T)

  /** A value or an error. */
  datatype Result<+T, +E> = Success(value: T) | Failure(error: E)

  /** The exceptions that escape a handler of the charm. */
  datatype PyError =
    | KeyError(key: string)          // a databag indexed with a key it does not hold
    | RuntimeError(message: string)  // raised when no workload environment can be built
    | RelationDataError(key: string) // a non-leader writing a key of the application databag

  /** Dictionary lookup with `.get(key)`: `None` when the key is absent. */
  function Get<K, V>(m: map<K, V>, k: K): (r: Option<V>)
    ensures r.Some? <==> k in m
    ensures r.Some? ==> r.value == m[k]
  {
    if k in m then Some(m[k]) else None
  }
}
