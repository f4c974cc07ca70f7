/** Small shared vocabulary: an optional value, and the sum of the values of a finite map. */
module Common {

  datatype Option<+T> = None | Some(value: T)

  /** The sum of all values of a finite map, in no particular key order
      (what an SQL `SUM` over a table column computes). */
  ghost function SumValues<K>(m: map<K, int>): int
    decreases m.Keys
  {
    if m.Keys == {} then 0
    else
      var k :| k in m.Keys;
      m[k] + SumValues(m - {k})
  }

  /** The sum does not depend on which key is taken out first. */
  lemma {:induction false} SumValuesRemove<K>(m: map<K, int>, k: K)
    requires k in m
    ensures SumValues(m) == m[k] + SumValues(m - {k})
    decreases m.Keys
  {
    var j :| j in m.Keys && SumValues(m) == m[j] + SumValues(m - {j});
    if j != k {
      SumValuesRemove(m - {j}, k);
      SumValuesRemove(m - {k}, j);
      assert m - {j} - {k} == m - {k} - {j};
    }
  }

  /** Overwriting one entry changes the sum by the difference of the two values. */
  lemma SumValuesUpdate<K>(m: map<K, int>, k: K, v: int)
    ensures k in m ==> SumValues(m[k := v]) == SumValues(m) - m[k] + v
    ensures k !in m ==> SumValues(m[k := v]) == SumValues(m) + v
  {
    SumValuesRemove(m[k := v], k);
    assert m[k := v] - {k} == m - {k};
    if k in m {
      SumValuesRemove(m, k);
    } else {
      assert m - {k} == m;
    }
  }

  /** A map of non-negative values has a non-negative sum. */
  lemma {:induction false} SumValuesNonNegative<K>(m: map<K, int>)
    ensures (forall k :: k in m ==> m[k] >= 0) ==> SumValues(m) >= 0
    decreases m.Keys
  {
    if m.Keys != {} {
      var k :| k in m.Keys;
      SumValuesRemove(m, k);
      SumValuesNonNegative(m - {k});
    }
  }
}
