/** Optional values, the zero-or-one answer every port call of the proxy resolves to. */
module Wrappers {

  datatype Option<+T> = None | Some(value: T)

  /** The value a map holds under a key, if it holds one. */
  function Lookup<K, V>(m: map<K, V>, k: K): (r: Option<V>)
    ensures r.Some? <==> k in m
    ensures r.Some? ==> r.value == m[k]
  {
    if k in m then Some(m[k]) else None
  }
}
