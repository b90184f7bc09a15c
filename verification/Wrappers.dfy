// The conventional optional value.
module Wrappers {
  datatype Option<+T> = None | Some(value: T)

  /** A map into a set that takes no value twice is no larger than the set. */
  lemma {:induction false} InjectiveSize<K, V>(m: map<K, V>, values: set<V>)
    requires forall k :: k in m ==> m[k] in values
    requires forall k, l :: k in m && l in m && m[k] == m[l] ==> k == l
    ensures |m| <= |values|
    decreases |m|
  {
    if m != map[] {
      var k :| k in m;
      var rest := m - {k};
      assert m == rest[k := m[k]];
      InjectiveSize(rest, values - {m[k]});
    }
  }
}
