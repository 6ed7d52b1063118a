/** Sums over the values of a finite map: how the concurrent models count threads in a
    phase and add up the bytes or permits that the threads hold. */
module MapSums {

  ghost function Sum<K, V>(m: map<K, V>, f: V -> nat): nat
    decreases |m|
  {
    if m == map[] then 0
    else
      var k :| k in m;
      f(m[k]) + Sum(m - {k}, f)
  }

  lemma {:induction false} SumRemove<K, V>(m: map<K, V>, f: V -> nat, k: K)
    requires k in m
    ensures Sum(m, f) == f(m[k]) + Sum(m - {k}, f)
    decreases |m|
  {
    var j :| j in m && Sum(m, f) == f(m[j]) + Sum(m - {j}, f);
    if j == k {
    } else {
      SumRemove(m - {j}, f, k);
      SumRemove(m - {k}, f, j);
      assert m - {j} - {k} == m - {k} - {j};
    }
  }

  lemma SumInsert<K, V>(m: map<K, V>, f: V -> nat, k: K, v: V)
    requires k !in m
    ensures Sum(m[k := v], f) == Sum(m, f) + f(v)
  {
    SumRemove(m[k := v], f, k);
    assert m[k := v] - {k} == m;
  }

  lemma SumUpdate<K, V>(m: map<K, V>, f: V -> nat, k: K, v: V)
    requires k in m
    ensures Sum(m[k := v], f) + f(m[k]) == Sum(m, f) + f(v)
  {
    SumRemove(m, f, k);
    SumRemove(m[k := v], f, k);
    assert m[k := v] - {k} == m - {k};
  }

  lemma SumAtLeast<K, V>(m: map<K, V>, f: V -> nat, k: K)
    requires k in m
    ensures f(m[k]) <= Sum(m, f)
  {
    SumRemove(m, f, k);
  }

  lemma {:induction false} SumZero<K, V>(m: map<K, V>, f: V -> nat)
    requires forall k :: k in m ==> f(m[k]) == 0
    ensures Sum(m, f) == 0
    decreases |m|
  {
    if m == map[] {
    } else {
      var k :| k in m;
      SumRemove(m, f, k);
      SumZero(m - {k}, f);
    }
  }

  /** Every key of `keys` weighs at least one. */
  lemma {:induction false} SumCovers<K, V>(m: map<K, V>, f: V -> nat, keys: set<K>)
    requires forall k :: k in keys ==> k in m && f(m[k]) >= 1
    ensures |keys| <= Sum(m, f)
    decreases |keys|
  {
    if keys == {} {
    } else {
      var k :| k in keys;
      SumRemove(m, f, k);
      SumCovers(m - {k}, f, keys - {k});
    }
  }

  lemma {:induction false} SumMonotone<K, V>(m: map<K, V>, f: V -> nat, g: V -> nat)
    requires forall k :: k in m ==> f(m[k]) <= g(m[k])
    ensures Sum(m, f) <= Sum(m, g)
    decreases |m|
  {
    if m == map[] {
    } else {
      var k :| k in m;
      SumRemove(m, f, k);
      SumRemove(m, g, k);
      SumMonotone(m - {k}, f, g);
    }
  }
}
