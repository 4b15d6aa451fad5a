/** Enumerating the keys of a map, in the unspecified order in which a
    store or `Object.keys` hands them out. */
module Maps {

  /** `ks` lists each key of `m` exactly once. */
  ghost predicate EnumeratesKeys<K(!new), V>(ks: seq<K>, m: map<K, V>) {
    && |ks| == |m|
    && (forall i, j :: 0 <= i < j < |ks| ==> ks[i] != ks[j])
    && (forall k :: k in m <==> k in ks)
  }

  method KeysOf<K(!new), V>(m: map<K, V>) returns (ks: seq<K>)
    ensures EnumeratesKeys(ks, m)
  {
    var rest := m;
    ks := [];
    while rest != map[]
      invariant rest.Keys <= m.Keys
      invariant |ks| + |rest| == |m|
      invariant forall i, j :: 0 <= i < j < |ks| ==> ks[i] != ks[j]
      invariant forall k :: k in m <==> k in rest || k in ks
      invariant forall k :: k in ks ==> k !in rest
      decreases |rest|
    {
      var k :| k in rest;
      ks := ks + [k];
      rest := rest - {k};
    }
  }
}
