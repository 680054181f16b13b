/**
 * A JavaScript plain object used as a dictionary keyed by strings, as the
 * aggregation passes of index.js build them with `{}` and `obj[key] = value`.
 */
module Dict {

  /** No element occurs twice. */
  predicate Distinct<T(==)>(s: seq<T>)
  {
    forall i, j :: 0 <= i < j < |s| ==> s[i] != s[j]
  }

  /**
   * The own keys of the object in the order they were first assigned (the
   * order `Object.entries` reports them in) and the value stored at each key.
   */
  datatype Dict<V> = Dict(keys: seq<string>, values: map<string, V>)
  {
    /** Every key is listed once, and exactly the listed keys hold a value. */
    ghost predicate Valid()
    {
      Distinct(keys) && forall k :: k in values <==> k in keys
    }

    /** `obj[k] = v`: overwrites an existing key in place, or appends a new one. */
    function Put(k: string, v: V): (r: Dict<V>)
      ensures k in r.values && r.values[k] == v
      ensures |r.keys| == if k in values then |keys| else |keys| + 1
      ensures r.keys == if k in values then keys else keys + [k]
      ensures r.values - {k} == values - {k}
    {
      if k in values then Dict(keys, values[k := v]) else Dict(keys + [k], values[k := v])
    }
  }

  /** Assignment keeps the keys listed once each and in step with the stored values. */
  lemma PutValid<V>(d: Dict<V>, k: string, v: V)
    requires d.Valid()
    ensures d.Put(k, v).Valid()
    ensures k in d.Put(k, v).keys
  {
  }

  /** `stats[name] || 0` on a dictionary of counts: the stored count, 0 for a name not present. */
  function Total(stats: Dict<nat>, name: string): (r: nat)
    ensures r > 0 ==> name in stats.values
  {
    if name in stats.values then stats.values[name] else 0
  }

  /** The object literal `{}`. */
  function Empty<V>(): (r: Dict<V>)
    ensures r.Valid() && |r.keys| == 0 && |r.values| == 0
  {
    Dict([], map[])
  }
}
