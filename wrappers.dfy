/** Optional values: PHP's `null` against a present value. */
module Wrappers {

  datatype Option<+T> = None | Some(value: T)

  /** `$m[$k] ?? null` */
  function Lookup<K, V>(m: map<K, V>, k: K): (r: Option<V>)
    ensures r.Some? <==> k in m
    ensures r.Some? ==> r.value == m[k]
  {
    if k in m then Some(m[k]) else None
  }
}
