// Names, optional values and map lookups shared by every part of the model.
module Objects {

  datatype Option<+T> = None | Some(value: T)
  {
    function GetOr(default: T): T {
      if Some? then value else default
    }
  }

  type byte = x: int | 0 <= x < 256

  /** A namespaced name: the request of a reconcile and the key of every API object. */
  datatype Key = Key(namespace: string, name: string)

  /** The entry of a map, if there is one. */
  function Find<K(==), V>(m: map<K, V>, k: K): Option<V> {
    if k in m then Some(m[k]) else None
  }

  /** Go's map index for string values: a missing entry reads as the empty string. */
  function Index(m: map<string, string>, k: string): string {
    if k in m then m[k] else ""
  }

  /** Appending a fixed suffix is injective. */
  lemma SuffixInjective(a: string, b: string, suffix: string)
    requires a + suffix == b + suffix
    ensures a == b
  {
    assert |a| == |b|;
    assert (a + suffix)[..|a|] == a;
    assert (b + suffix)[..|b|] == b;
  }
}
