/** A storage double map: values keyed by an ordered pair `(k1, k2)`, with
    point access on the exact pair and a bulk removal of every entry that
    shares a first key. The first key is the prefix the host's storage lays
    the entries out under, which is what makes that bulk removal local. */
module DoubleKeyStore {

  /** `contains_key(k1, k2)`. */
  predicate ContainsKey<K1(==,!new), K2(==,!new), V>(m: map<(K1, K2), V>, k1: K1, k2: K2): (r: bool)
    ensures r <==> (k1, k2) in m.Keys
  {
    (k1, k2) in m
  }

  /** `insert(k1, k2, v)`: sets the exact pair, whether or not it was there. */
  function Insert<K1(==,!new), K2(==,!new), V>(m: map<(K1, K2), V>, k1: K1, k2: K2, v: V): (r: map<(K1, K2), V>)
    ensures ContainsKey(r, k1, k2) && r[(k1, k2)] == v
    ensures forall k :: k != (k1, k2) ==> (k in r <==> k in m)
    ensures forall k :: k != (k1, k2) && k in m ==> r[k] == m[k]
  {
    m[(k1, k2) := v]
  }

  /** `remove(k1, k2)`: deletes the exact pair; removing an absent pair changes nothing. */
  function Remove<K1(==,!new), K2(==,!new), V>(m: map<(K1, K2), V>, k1: K1, k2: K2): (r: map<(K1, K2), V>)
    ensures !ContainsKey(r, k1, k2)
    ensures forall k :: k != (k1, k2) ==> (k in r <==> k in m)
    ensures forall k :: k in r ==> r[k] == m[k]
    ensures !ContainsKey(m, k1, k2) ==> r == m
  {
    m - {(k1, k2)}
  }

  /** `remove_prefix(k1)`: deletes every entry whose first key is `k1`,
      whatever its second key, and keeps every other entry as it was. */
  function RemovePrefix<K1(==,!new), K2(==,!new), V>(m: map<(K1, K2), V>, k1: K1): (r: map<(K1, K2), V>)
    ensures forall k2 :: !ContainsKey(r, k1, k2)
    ensures forall k :: k in r <==> k in m && k.0 != k1
    ensures forall k :: k in r ==> r[k] == m[k]
  {
    map k | k in m && k.0 != k1 :: m[k]
  }
}
