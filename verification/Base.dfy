/** Small shared vocabulary: optional values and finite-collection facts. */
module Base {

  datatype Option<+T> = None | Some(value: T)

  function Min(a: int, b: int): int {
    if a <= b then a else b
  }

  /** Total of the values of a finite map. */
  ghost function SumOf<K>(m: map<K, nat>): nat
    decreases |m|
  {
    if m == map[] then 0 else
      var k :| k in m;
      m[k] + SumOf(m - {k})
  }

  lemma {:induction false} SumOfRemove<K>(m: map<K, nat>, k: K)
    requires k in m
    ensures SumOf(m) == m[k] + SumOf(m - {k})
    decreases |m|
  {
    var c :| c in m && SumOf(m) == m[c] + SumOf(m - {c});
    if c != k {
      SumOfRemove(m - {c}, k);
      SumOfRemove(m - {k}, c);
      assert m - {c} - {k} == m - {k} - {c};
    }
  }

  lemma SumOfInsert<K>(m: map<K, nat>, k: K, v: nat)
    requires k !in m
    ensures SumOf(m[k := v]) == SumOf(m) + v
  {
    SumOfRemove(m[k := v], k);
    assert m[k := v] - {k} == m;
  }

  lemma {:induction false} SubsetSize<T>(a: set<T>, b: set<T>)
    requires a <= b
    ensures |a| <= |b|
  {
    if a != {} {
      var x :| x in a;
      SubsetSize(a - {x}, b - {x});
    }
  }
}
