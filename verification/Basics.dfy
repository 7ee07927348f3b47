/** Vocabulary shared by every module: optional values, results, and sums over finite maps. */
module Basics {

  datatype Option<+T> = None | Some(value: T)

  datatype Result<+T, +E> = Ok(value: T) | Err(error: E)

  /** The sum of the values of a finite map, taken in any order. */
  ghost function SumValues<K>(m: map<K, int>): int
  {
    if m == map[] then 0 else
      var k :| k in m;
      m[k] + SumValues(m - {k})
  }

  /** The order in which `SumValues` picks the keys does not matter. */
  lemma {:induction false} SumRemove<K>(m: map<K, int>, k: K)
    requires k in m
    ensures SumValues(m) == m[k] + SumValues(m - {k})
    decreases |m|
  {
    var p :| p in m && SumValues(m) == m[p] + SumValues(m - {p});
    if p != k {
      SumRemove(m - {p}, k);
      SumRemove(m - {k}, p);
      assert m - {p} - {k} == m - {k} - {p};
    }
  }

  lemma SumInsert<K>(m: map<K, int>, k: K, v: int)
    requires k !in m
    ensures SumValues(m[k := v]) == SumValues(m) + v
  {
    SumRemove(m[k := v], k);
    assert m[k := v] - {k} == m;
  }

  lemma {:induction false} SumNonNegative<K>(m: map<K, int>)
    requires forall k :: k in m ==> m[k] >= 0
    ensures SumValues(m) >= 0
    ensures forall k :: k in m ==> m[k] <= SumValues(m)
    decreases |m|
  {
    if m != map[] {
      var p :| p in m;
      SumRemove(m, p);
      SumNonNegative(m - {p});
      forall k | k in m ensures m[k] <= SumValues(m) {
        if k != p { assert k in m - {p}; }
      }
    }
  }
}
