/** PHP arrays used as dictionaries: a map that also remembers the order in
    which keys were first inserted. Assigning to an existing key replaces
    its value in place and keeps its position. */
module OrderedMaps {
  datatype OMap<K, V> = OMap(keys: seq<K>, values: map<K, V>)

  /** Every key appears once in the order and the order lists exactly the
      keys of the map. */
  ghost predicate Wf<K(!new), V>(m: OMap<K, V>)
  {
    (forall k :: k in m.values <==> k in m.keys) &&
    (forall i, j :: 0 <= i < j < |m.keys| ==> m.keys[i] != m.keys[j])
  }

  function Empty<K(!new), V>(): (r: OMap<K, V>)
    ensures Wf(r)
  {
    OMap([], map[])
  }

  /** `$array[$k] = $v` */
  function Put<K(!new), V>(m: OMap<K, V>, k: K, v: V): (r: OMap<K, V>)
    ensures r.values == m.values[k := v]
    ensures k in m.values ==> r.keys == m.keys
    ensures k !in m.values ==> r.keys == m.keys + [k]
  {
    if k in m.values then m.(values := m.values[k := v])
    else OMap(m.keys + [k], m.values[k := v])
  }

  /** Assigning keeps every key once, in the order of first insertion. */
  lemma PutWf<K(!new), V>(m: OMap<K, V>, k: K, v: V)
    requires Wf(m)
    ensures Wf(Put(m, k, v))
  {
  }

  /** The values in key order. */
  function Values<K(!new), V>(m: OMap<K, V>): (r: seq<V>)
    requires Wf(m)
    ensures |r| == |m.keys|
    ensures forall i :: 0 <= i < |m.keys| ==> r[i] == m.values[m.keys[i]]
  {
    seq(|m.keys|, i requires 0 <= i < |m.keys| => m.values[m.keys[i]])
  }

  /** Iteration after an assignment: a new key's value comes last, and an
      existing key's new value comes where that key stands, every other
      value keeping its place. */
  lemma ValuesPut<K(!new), V>(m: OMap<K, V>, k: K, v: V)
    requires Wf(m)
    ensures Wf(Put(m, k, v))
    ensures k !in m.values ==> Values(Put(m, k, v)) == Values(m) + [v]
    ensures forall i :: 0 <= i < |m.keys| && m.keys[i] == k ==> Values(Put(m, k, v)) == Values(m)[i := v]
  {
    PutWf(m, k, v);
    var r := Put(m, k, v);
    if k !in m.values {
      assert Values(r) == Values(m) + [v];
    } else {
      forall i | 0 <= i < |m.keys| && m.keys[i] == k
        ensures Values(r) == Values(m)[i := v]
      {
        forall j | 0 <= j < |m.keys|
          ensures Values(r)[j] == Values(m)[i := v][j]
        {
          if j != i {
            assert m.keys[j] != k;
          }
        }
      }
    }
  }
}
