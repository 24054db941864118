/** Resolution maps, from a name-occurrence node to the entity it names. */
module Maps {

  /** `HashMap::extend`: every entry of `added` is inserted, replacing the
      value of a key `m` already holds. */
  function Extend<K, V>(m: map<K, V>, added: map<K, V>): (r: map<K, V>)
    ensures r.Keys == m.Keys + added.Keys
    ensures forall k :: k in added ==> r[k] == added[k]
    ensures forall k :: k in m && k !in added ==> r[k] == m[k]
  {
    m + added
  }
}
