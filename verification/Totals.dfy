/** Sums of sizes over a map: what the byte counters of the caches are measured against. */
module Totals {

  ghost function Total<K, V>(m: map<K, V>, size: V -> nat): (n: nat) {
    if m == map[] then 0
    else
      var k :| k in m;
      size(m[k]) + Total(m - {k}, size)
  }

  lemma {:induction false} TotalRemove<K, V>(m: map<K, V>, size: V -> nat, k: K)
    requires k in m
    ensures Total(m, size) == size(m[k]) + Total(m - {k}, size)
    decreases |m|
  {
    var c :| c in m && Total(m, size) == size(m[c]) + Total(m - {c}, size);
    if c != k {
      TotalRemove(m - {c}, size, k);
      TotalRemove(m - {k}, size, c);
      assert m - {c} - {k} == m - {k} - {c};
    }
  }

  lemma TotalPut<K, V>(m: map<K, V>, size: V -> nat, k: K, v: V)
    ensures Total(m[k := v], size) == size(v) + Total(m - {k}, size)
    ensures k in m ==> Total(m, size) == size(m[k]) + Total(m - {k}, size)
    ensures k !in m ==> m - {k} == m
  {
    TotalRemove(m[k := v], size, k);
    assert m[k := v] - {k} == m - {k};
    if k in m {
      TotalRemove(m, size, k);
    }
  }

  lemma TotalEmpty<K, V>(m: map<K, V>, size: V -> nat)
    requires m == map[]
    ensures Total(m, size) == 0
  {
  }
}
