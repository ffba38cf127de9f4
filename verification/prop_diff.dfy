/**
 * `PropDiff`: remembers the last props object and, on `compare`, calls the
 * callback of every key of the new props whose value differs from the
 * remembered one, then remembers the new props in place of the old.
 * A props object is a map; a key it does not hold reads as `undefined`.
 */
module PropDiff {
  import opened Nullable

  /** One callback invocation: the key, the new value, and the remembered value (`None` for `undefined`). */
  datatype Call<K, V> = Call(key: K, newValue: V, oldValue: Option<V>)

  /** What one `compare` does: the callbacks it invokes and the props it remembers afterwards. */
  datatype Comparison<K(==), V(==)> = Comparison(calls: set<Call<K, V>>, stored: map<K, V>)

  /** Reading a key of a props object. */
  function Lookup<K, V>(m: map<K, V>, k: K): (r: Option<V>)
    ensures r.Some? <==> k in m
    ensures r.Some? ==> r.value == m[k]
  {
    if k in m then Some(m[k]) else None
  }

  /** `compare(props, callbacks)` against the remembered props `stored`. */
  function Compare<K(==), V(==)>(stored: map<K, V>, props: map<K, V>): (r: Comparison<K, V>)
    ensures r.stored == props
    ensures forall k :: k in props && Lookup(stored, k) != Some(props[k]) ==>
      Call(k, props[k], Lookup(stored, k)) in r.calls
    ensures forall c :: c in r.calls ==>
      && c.key in props && c.newValue == props[c.key]
      && c.oldValue == Lookup(stored, c.key) && c.oldValue != Some(c.newValue)
  {
    Comparison(set k | k in props && Lookup(stored, k) != Some(props[k]) :: Call(k, props[k], Lookup(stored, k)), props)
  }

  /** The callback for `k` runs iff `k` is given and its value differs from the remembered one. */
  lemma CallIffChanged<K, V>(stored: map<K, V>, props: map<K, V>, k: K)
    ensures (exists c :: c in Compare(stored, props).calls && c.key == k)
        <==> k in props && Lookup(stored, k) != Some(props[k])
  {
    if k in props && Lookup(stored, k) != Some(props[k]) {
      assert Call(k, props[k], Lookup(stored, k)) in Compare(stored, props).calls;
    }
  }

  /** Each callback runs at most once per `compare`. */
  lemma OneCallPerKey<K, V>(stored: map<K, V>, props: map<K, V>, c1: Call<K, V>, c2: Call<K, V>)
    requires c1 in Compare(stored, props).calls && c2 in Compare(stored, props).calls
    requires c1.key == c2.key
    ensures c1 == c2
  {
  }

  /** Comparing the same props a second time invokes no callback. */
  lemma CompareTwiceIsQuiet<K, V>(stored: map<K, V>, props: map<K, V>)
    ensures Compare(Compare(stored, props).stored, props).calls == {}
  {
  }

  /** A key missing from the new props never triggers its callback, whatever was remembered. */
  lemma AbsentKeyIsQuiet<K, V>(stored: map<K, V>, props: map<K, V>, k: K)
    requires k !in props
    ensures forall c :: c in Compare(stored, props).calls ==> c.key != k
    ensures Lookup(Compare(stored, props).stored, k).None?
  {
  }
}
