/** The optional value the models share: a Go pointer that may be nil, or a map lookup with its found flag. */
module Options {

  datatype Option<+T> = None | Some(value: T)

  /** A map lookup as Go writes it: the value and whether it was there. */
  function Lookup<K, V>(m: map<K, V>, k: K): Option<V> {
    if k in m then Some(m[k]) else None
  }
}
