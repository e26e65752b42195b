// Sums over finite maps, used to state that a running total equals the entries it counts.

module MapSums {

  /** The sum of all values of a finite map. */
  ghost function Sum<K>(m: map<K, nat>): nat
    decreases |m|
  {
    if m == map[] then 0
    else
      var k :| k in m;
      m[k] + Sum(m - {k})
  }

  /** The choice of the first key does not matter. */
  lemma {:induction false} SumSplit<K>(m: map<K, nat>, k: K)
    requires k in m
    ensures Sum(m) == m[k] + Sum(m - {k})
    decreases |m|
  {
    var c :| c in m && Sum(m) == m[c] + Sum(m - {c});
    if c != k {
      SumSplit(m - {c}, k);
      SumSplit(m - {k}, c);
      assert m - {c} - {k} == m - {k} - {c};
    }
  }

  lemma SumInsert<K>(m: map<K, nat>, k: K, v: nat)
    requires k !in m
    ensures Sum(m[k := v]) == Sum(m) + v
  {
    SumSplit(m[k := v], k);
    assert m[k := v] - {k} == m;
  }

  lemma SumUpdate<K>(m: map<K, nat>, k: K, v: nat)
    requires k in m
    ensures Sum(m[k := v]) == Sum(m) - m[k] + v
  {
    SumSplit(m, k);
    SumSplit(m[k := v], k);
    assert m[k := v] - {k} == m - {k};
  }

  lemma SumRemove<K>(m: map<K, nat>, k: K)
    ensures Sum(m - {k}) == if k in m then Sum(m) - m[k] else Sum(m)
    ensures k in m ==> m[k] <= Sum(m)
  {
    if k in m {
      SumSplit(m, k);
    } else {
      assert m - {k} == m;
    }
  }

  /** The map without one key. */
  function Removed<K, V>(m: map<K, V>, k: K): map<K, V> {
    m - {k}
  }

  lemma SumRemoved<K>(m: map<K, nat>, k: K)
    requires k in m
    ensures Sum(Removed(m, k)) == Sum(m) - m[k] && m[k] <= Sum(m)
  {
    SumRemove(m, k);
  }

  lemma RemovedSize<K, V>(m: map<K, V>, k: K)
    ensures |Removed(m, k)| == if k in m then |m| - 1 else |m|
  {
    if k in m {
      assert m.Keys == Removed(m, k).Keys + {k};
    } else {
      assert Removed(m, k) == m;
    }
  }

  lemma RemovedAbsent<K, V>(m: map<K, V>, k: K)
    requires k !in m
    ensures Removed(m, k) == m
  {
  }

  /** Putting a fresh key and removing it again changes nothing. */
  lemma RemovedPut<K, V>(m: map<K, V>, k: K, v: V)
    requires k !in m
    ensures Removed(m[k := v], k) == m
  {
  }

  lemma RemovedKeys<K, V>(m: map<K, V>, k: K, x: K)
    ensures x in Removed(m, k) <==> x in m && x != k
    ensures x in Removed(m, k) ==> Removed(m, k)[x] == m[x]
  {
  }

  lemma RemovedEverywhere<K(!new), V(!new)>(m: map<K, V>, k: K)
    ensures forall x :: x in Removed(m, k) <==> x in m && x != k
    ensures forall x :: x in Removed(m, k) ==> Removed(m, k)[x] == m[x]
  {
  }

  lemma RemovedReplaced<K, V>(m: map<K, V>, k: K, v: V)
    ensures Removed(m[k := v], k) == Removed(m, k)
  {
  }

  lemma AnyKey<K, V>(m: map<K, V>) returns (k: K)
    requires m != map[]
    ensures k in m
  {
    k :| k in m;
  }

  method SomeKey<K(==), V(==)>(m: map<K, V>) returns (k: K)
    requires m != map[]
    ensures k in m
  {
    k :| k in m;
  }
}
