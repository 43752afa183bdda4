/**
 * A `std::collections::HashMap` as the code sees it through `into_iter`: its entries in
 * the order the iterator yields them. That order is unspecified (it depends on the map's
 * random hash state), so nothing below depends on it; what the type does guarantee is
 * that no key occurs twice.
 */
module HashMaps {
  import opened Wrappers

  ghost predicate DistinctKeys<K, V>(entries: seq<(K, V)>) {
    forall i, j :: 0 <= i < j < |entries| ==> entries[i].0 != entries[j].0
  }

  type HashMap<K, V> = entries: seq<(K, V)> | DistinctKeys(entries) witness []

  /** The keys of the map. */
  function Keys<K, V>(m: HashMap<K, V>): set<K> {
    set i | 0 <= i < |m| :: m[i].0
  }

  /** There is exactly one key per entry. */
  lemma {:induction false} KeysCount<K, V>(m: HashMap<K, V>)
    ensures |Keys(m)| == |m|
  {
    if |m| > 0 {
      var rest: HashMap<K, V> := m[1..];
      KeysCount(rest);
      assert Keys(m) == {m[0].0} + Keys(rest) by {
        forall k | k in Keys(m) ensures k in {m[0].0} + Keys(rest) {
          var i :| 0 <= i < |m| && m[i].0 == k;
          if i > 0 { assert rest[i - 1].0 == k; }
        }
      }
      assert m[0].0 !in Keys(rest);
    }
  }

  /** The value stored under `k`, if any. */
  function Lookup<K(==), V>(m: HashMap<K, V>, k: K): (r: Option<V>)
    ensures r.Some? <==> k in Keys(m)
    ensures forall i :: 0 <= i < |m| && m[i].0 == k ==> r == Some(m[i].1)
  {
    if |m| == 0 then None
    else if m[0].0 == k then Some(m[0].1)
    else
      var rest: HashMap<K, V> := m[1..];
      assert forall i :: 1 <= i < |m| ==> m[i] == rest[i - 1];
      Lookup(rest, k)
  }

  /** Two iteration orders of one map: same keys, same value under each key. */
  ghost predicate SameMap<K, V>(m1: HashMap<K, V>, m2: HashMap<K, V>) {
    Keys(m1) == Keys(m2) && forall k :: k in Keys(m1) ==> Lookup(m1, k) == Lookup(m2, k)
  }
}
