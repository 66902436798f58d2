/** Choosing elements of sets and keys of maps; `other` stands in where there is none. */
module Collections {

  ghost function Pick<T>(s: set<T>): (x: T)
    requires s != {}
    ensures x in s
  {
    var x :| x in s;
    x
  }

  /** An element only one of two sets has, unless they are equal. */
  ghost function Apart<T>(a: set<T>, b: set<T>, other: T): (x: T)
    ensures a == b || (x in a) != (x in b)
  {
    if a - b != {} then Pick(a - b) else if b - a != {} then Pick(b - a) else other
  }

  /** A key of a map, unless it is empty. */
  ghost function AnyKey<K, V>(m: map<K, V>, other: K): (k: K)
    ensures m == map[] || k in m
  {
    if m.Keys != {} then Pick(m.Keys) else other
  }

  lemma PutSize<K, V>(m: map<K, V>, k: K, v: V)
    ensures |m[k := v].Keys| == |m.Keys| + if k in m then 0 else 1
  {
    assert m[k := v].Keys == m.Keys + {k};
  }
}
