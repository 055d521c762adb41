/**
 Sums over finite maps. A storage map of the contracts reads as 0 where nothing was
 written, so every fact is about `Get` and not about the map's domain.
 */
module Sums {

  /** The value of a storage map at a key. */
  function Get<K>(m: map<K, nat>, k: K): nat {
    if k in m then m[k] else 0
  }

  ghost function Sum<K(!new)>(m: map<K, nat>): nat
    decreases |m|
  {
    if m == map[] then 0
    else
      var k :| k in m;
      assert |m - {k}| < |m| by { assert (m - {k}).Keys == m.Keys - {k}; }
      m[k] + Sum(m - {k})
  }

  /** Any key may be taken out first. */
  lemma {:induction false} SumRemove<K(!new)>(m: map<K, nat>, k: K)
    requires k in m
    ensures Sum(m) == m[k] + Sum(m - {k})
    decreases |m|
  {
    var j :| j in m && Sum(m) == m[j] + Sum(m - {j});
    if j != k {
      assert |m - {j}| < |m| && |m - {k}| < |m| by {
        assert (m - {j}).Keys == m.Keys - {j} && (m - {k}).Keys == m.Keys - {k};
      }
      SumRemove(m - {j}, k);
      SumRemove(m - {k}, j);
      assert (m - {j}) - {k} == (m - {k}) - {j};
    }
  }

  /** Writing one entry changes the sum by the change of that entry. */
  lemma SumPut<K(!new)>(m: map<K, nat>, k: K, v: nat)
    ensures Sum(m[k := v]) + Get(m, k) == Sum(m) + v
  {
    SumRemove(m[k := v], k);
    if k in m {
      SumRemove(m, k);
      assert m[k := v] - {k} == m - {k};
    } else {
      assert m[k := v] - {k} == m;
    }
  }

  lemma SumAtLeast<K(!new)>(m: map<K, nat>, k: K)
    ensures Get(m, k) <= Sum(m)
  {
    if k in m { SumRemove(m, k); }
  }

  lemma SumAtLeastTwo<K(!new)>(m: map<K, nat>, j: K, k: K)
    requires j != k
    ensures Get(m, j) + Get(m, k) <= Sum(m)
  {
    if k in m {
      SumRemove(m, k);
      SumAtLeast(m - {k}, j);
    } else {
      SumAtLeast(m, j);
    }
  }
}
