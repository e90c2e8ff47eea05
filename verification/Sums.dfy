/** Sums of the integer values of a finite map, independent of the order in which
    a `range` loop visits its keys. */
module Sums {

  ghost function Sum<K(!new)>(m: map<K, int>): int
    decreases |m|
  {
    if m == map[] then 0 else
      var k :| k in m;
      m[k] + Sum(m - {k})
  }

  /** Any key may be split off, not only the one the definition picks. */
  lemma {:induction false} SumSplit<K(!new)>(m: map<K, int>, k: K)
    requires k in m
    ensures Sum(m) == m[k] + Sum(m - {k})
    decreases |m|
  {
    var first :| first in m && Sum(m) == m[first] + Sum(m - {first});
    if first != k {
      SumSplit(m - {first}, k);
      SumSplit(m - {k}, first);
      assert (m - {first}) - {k} == (m - {k}) - {first};
    }
  }

  lemma SumUpdate<K(!new)>(m: map<K, int>, k: K, v: int)
    ensures Sum(m[k := v]) == Sum(m - {k}) + v
    ensures k !in m ==> Sum(m[k := v]) == Sum(m) + v
    ensures k in m ==> Sum(m[k := v]) == Sum(m) - m[k] + v
  {
    SumSplit(m[k := v], k);
    assert m[k := v] - {k} == m - {k};
    if k in m {
      SumSplit(m, k);
    } else {
      assert m - {k} == m;
    }
  }

  lemma {:induction false} SumNonnegative<K(!new)>(m: map<K, int>)
    requires forall k | k in m :: 0 <= m[k]
    ensures 0 <= Sum(m)
    decreases |m|
  {
    if m != map[] {
      var k :| k in m && Sum(m) == m[k] + Sum(m - {k});
      SumNonnegative(m - {k});
    }
  }

  function At<K>(m: map<K, int>, k: K): int {
    if k in m then m[k] else 0
  }

  /** Growing the entries, or adding nonnegative ones, cannot lower a sum. */
  lemma {:induction false} SumDominated<K(!new)>(small: map<K, int>, large: map<K, int>)
    requires forall k | k in small :: small[k] <= At(large, k)
    requires forall k | k in large :: 0 <= large[k]
    ensures Sum(small) <= Sum(large)
    decreases |small|
  {
    if small == map[] {
      SumNonnegative(large);
    } else {
      var k :| k in small && Sum(small) == small[k] + Sum(small - {k});
      var rest := large - {k};
      assert Sum(large) == At(large, k) + Sum(rest) by {
        if k in large { SumSplit(large, k); } else { assert rest == large; }
      }
      forall j | j in small - {k} ensures (small - {k})[j] <= At(rest, j) {
        assert At(rest, j) == At(large, j);
      }
      SumDominated(small - {k}, rest);
    }
  }
}
