/** Sums of the values of a map. */
module Sums {
  import opened Collections

  ghost function SumOver(keys: set<int>, m: map<int, int>): int
    requires forall k :: k in keys ==> k in m
  {
    if keys == {} then 0 else var k := Pick(keys); m[k] + SumOver(keys - {k}, m)
  }

  function Domain(m: map<int, int>): set<int> { set k | k in m }

  ghost function Sum(m: map<int, int>): int { SumOver(Domain(m), m) }

  lemma {:induction false} SumWithout(keys: set<int>, m: map<int, int>, k: int)
    requires (forall u :: u in keys ==> u in m) && k in keys
    ensures SumOver(keys, m) == m[k] + SumOver(keys - {k}, m)
  {
    var c := Pick(keys);
    if c != k {
      SumWithout(keys - {c}, m, k);
      SumWithout(keys - {k}, m, c);
      assert keys - {c} - {k} == keys - {k} - {c};
    }
  }

  lemma {:induction false} SumAgrees(keys: set<int>, m: map<int, int>, m': map<int, int>)
    requires forall u :: u in keys ==> u in m && u in m' && m'[u] == m[u]
    ensures SumOver(keys, m') == SumOver(keys, m)
  {
    if k :| k in keys {
      SumAgrees(keys - {k}, m, m');
      SumWithout(keys, m, k);
      SumWithout(keys, m', k);
    }
  }

  /** Sums of maps that differ at `k` only differ by what is there. */
  lemma SumDiffer(m: map<int, int>, m': map<int, int>, k: int)
    requires forall u :: u != k ==> (u in m <==> u in m')
    requires forall u :: u in m && u != k ==> m'[u] == m[u]
    ensures Sum(m') + (if k in m then m[k] else 0) == Sum(m) + (if k in m' then m'[k] else 0)
  {
    var rest := Domain(m) - {k};
    assert rest == Domain(m') - {k} by {
      var u := Apart(rest, Domain(m') - {k}, 0);
    }
    SumAgrees(rest, m, m');
    if k in m { SumWithout(Domain(m), m, k); } else { assert rest == Domain(m); }
    if k in m' { SumWithout(Domain(m'), m', k); } else { assert rest == Domain(m'); }
  }

  lemma {:induction false} SumNonnegative(keys: set<int>, m: map<int, int>)
    requires forall u :: u in keys ==> u in m && m[u] >= 0
    ensures SumOver(keys, m) >= 0
  {
    if k :| k in keys {
      SumWithout(keys, m, k);
      SumNonnegative(keys - {k}, m);
    }
  }

  lemma SumBounds(m: map<int, int>)
    requires forall u :: u in m ==> m[u] >= 0
    ensures Sum(m) >= 0 && forall k :: k in m ==> Sum(m) >= m[k]
  {
    SumNonnegative(Domain(m), m);
    forall k | k in m ensures Sum(m) >= m[k] {
      SumWithout(Domain(m), m, k);
      SumNonnegative(Domain(m) - {k}, m);
    }
  }
}
