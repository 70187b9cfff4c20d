/** Shared vocabulary: optional values and sums over finite maps. */
module Basics {

  datatype Option<+T> = None | Some(value: T)

  /** The total weight of the entries of a finite map. */
  ghost function Sum<K, V>(m: map<K, V>, weight: (K, V) -> nat): nat
    decreases |m|
  {
    if m == map[] then 0
    else
      var k :| k in m;
      weight(k, m[k]) + Sum(m - {k}, weight)
  }

  /** Any entry may be split off first, so the sum does not depend on an order. */
  lemma {:induction false} SumSplit<K, V>(m: map<K, V>, weight: (K, V) -> nat, k: K)
    requires k in m
    ensures Sum(m, weight) == weight(k, m[k]) + Sum(m - {k}, weight)
    decreases |m|
  {
    var j :| j in m && Sum(m, weight) == weight(j, m[j]) + Sum(m - {j}, weight);
    if j != k {
      SumSplit(m - {j}, weight, k);
      SumSplit(m - {k}, weight, j);
      assert m - {j} - {k} == m - {k} - {j};
    }
  }

  /** Changing one entry changes the sum by the difference of its weights. */
  lemma SumUpdate<K, V>(m: map<K, V>, weight: (K, V) -> nat, k: K, v: V)
    requires k in m
    ensures Sum(m[k := v], weight) + weight(k, m[k]) == Sum(m, weight) + weight(k, v)
  {
    SumSplit(m, weight, k);
    SumSplit(m[k := v], weight, k);
    assert m[k := v] - {k} == m - {k};
  }

  /** One entry more. */
  lemma SumInsert<K, V>(m: map<K, V>, weight: (K, V) -> nat, k: K, v: V)
    requires k !in m
    ensures Sum(m[k := v], weight) == Sum(m, weight) + weight(k, v)
  {
    SumSplit(m[k := v], weight, k);
    assert m[k := v] - {k} == m;
  }

  /** Entries that weigh nothing can be dropped. */
  lemma {:induction false} SumDrop<K, V>(m: map<K, V>, m': map<K, V>, weight: (K, V) -> nat)
    requires forall k :: k in m' ==> k in m && m'[k] == m[k]
    requires forall k :: k in m && k !in m' ==> weight(k, m[k]) == 0
    ensures Sum(m', weight) == Sum(m, weight)
    decreases |m|
  {
    var gone := m.Keys - m'.Keys;
    if gone == {} {
      assert forall k :: k in m && k !in m' ==> k in gone;
      assert m' == m;
    } else {
      var k :| k in gone;
      SumSplit(m, weight, k);
      SumDrop(m - {k}, m', weight);
    }
  }

  /** One entry removed or changed. */
  lemma SumGone<K, V>(m: map<K, V>, m': map<K, V>, weight: (K, V) -> nat, k: K)
    requires k in m
    requires m' == m - {k} || (k in m' && m' == m[k := m'[k]])
    ensures k !in m' ==> Sum(m', weight) == Sum(m, weight) - weight(k, m[k])
    ensures k in m' ==> Sum(m', weight) == Sum(m, weight) - weight(k, m[k]) + weight(k, m'[k])
  {
    SumSplit(m, weight, k);
    if k in m' {
      SumUpdate(m, weight, k, m'[k]);
    }
  }

  lemma {:induction false} SumPositive<K, V>(m: map<K, V>, weight: (K, V) -> nat) returns (k: K)
    requires Sum(m, weight) > 0
    ensures k in m && weight(k, m[k]) > 0
    decreases |m|
  {
    k :| k in m && Sum(m, weight) == weight(k, m[k]) + Sum(m - {k}, weight);
    if weight(k, m[k]) == 0 {
      k := SumPositive(m - {k}, weight);
    }
  }
}
