/** Finite sums over the entries of a storage map and over an event log. */
module MapSums {

  ghost function Sum<K(!new), V(!new)>(m: map<K, V>, f: (K, V) -> nat): nat
    decreases |m.Keys|
  {
    if m == map[] then 0 else
      var k :| k in m;
      assert (m - {k}).Keys == m.Keys - {k};
      f(k, m[k]) + Sum(m - {k}, f)
  }

  ghost function Entry<K(!new), V(!new)>(m: map<K, V>, k: K, f: (K, V) -> nat): nat {
    if k in m then f(k, m[k]) else 0
  }

  /** Every entry may be the one summed first. */
  lemma {:induction false} SumSplit<K(!new), V(!new)>(m: map<K, V>, k: K, f: (K, V) -> nat)
    requires k in m
    ensures Sum(m, f) == f(k, m[k]) + Sum(m - {k}, f)
    decreases |m.Keys|
  {
    var j :| j in m && Sum(m, f) == f(j, m[j]) + Sum(m - {j}, f);
    if j != k {
      assert (m - {j}).Keys == m.Keys - {j};
      assert (m - {k}).Keys == m.Keys - {k};
      SumSplit(m - {j}, k, f);
      SumSplit(m - {k}, j, f);
      assert m - {j} - {k} == m - {k} - {j};
    }
  }

  lemma SumRemove<K(!new), V(!new)>(m: map<K, V>, k: K, f: (K, V) -> nat)
    ensures Sum(m - {k}, f) + Entry(m, k, f) == Sum(m, f)
  {
    if k in m {
      SumSplit(m, k, f);
    } else {
      assert m - {k} == m;
    }
  }

  lemma SumInsert<K(!new), V(!new)>(m: map<K, V>, k: K, v: V, f: (K, V) -> nat)
    ensures Sum(m[k := v], f) + Entry(m, k, f) == Sum(m, f) + f(k, v)
  {
    SumSplit(m[k := v], k, f);
    SumRemove(m, k, f);
    assert m[k := v] - {k} == m - {k};
  }

  lemma SumCoversEntry<K(!new), V(!new)>(m: map<K, V>, k: K, f: (K, V) -> nat)
    requires k in m
    ensures f(k, m[k]) <= Sum(m, f)
  {
    SumSplit(m, k, f);
  }

  lemma {:induction false} SumIsMonotone<K(!new), V(!new)>(m: map<K, V>, f: (K, V) -> nat, g: (K, V) -> nat)
    requires forall k :: k in m ==> f(k, m[k]) <= g(k, m[k])
    ensures Sum(m, f) <= Sum(m, g)
    decreases |m.Keys|
  {
    if m != map[] {
      var k :| k in m;
      SumSplit(m, k, f);
      SumSplit(m, k, g);
      assert (m - {k}).Keys == m.Keys - {k};
      SumIsMonotone(m - {k}, f, g);
    }
  }

  lemma SumCongruence<K(!new), V(!new)>(m: map<K, V>, f: (K, V) -> nat, g: (K, V) -> nat)
    requires forall k :: k in m ==> f(k, m[k]) == g(k, m[k])
    ensures Sum(m, f) == Sum(m, g)
  {
    SumIsMonotone(m, f, g);
    SumIsMonotone(m, g, f);
  }

  lemma {:induction false} SumIsLinear<K(!new), V(!new)>(m: map<K, V>, h: (K, V) -> nat, a: nat, f: (K, V) -> nat, b: nat, g: (K, V) -> nat)
    requires forall k :: k in m ==> h(k, m[k]) == a * f(k, m[k]) + b * g(k, m[k])
    ensures Sum(m, h) == a * Sum(m, f) + b * Sum(m, g)
    decreases |m.Keys|
  {
    if m != map[] {
      var k :| k in m;
      SumSplit(m, k, h);
      SumSplit(m, k, f);
      SumSplit(m, k, g);
      assert (m - {k}).Keys == m.Keys - {k};
      SumIsLinear(m - {k}, h, a, f, b, g);
      DistributeTwice(a, f(k, m[k]), Sum(m - {k}, f), b, g(k, m[k]), Sum(m - {k}, g));
    }
  }

  lemma DistributeTwice(a: nat, x: nat, y: nat, b: nat, u: nat, v: nat)
    ensures a * x + b * u + (a * y + b * v) == a * (x + y) + b * (u + v)
  {
  }

  lemma {:induction false} SumOfZeros<K(!new), V(!new)>(m: map<K, V>, f: (K, V) -> nat)
    requires forall k :: k in m ==> f(k, m[k]) == 0
    ensures Sum(m, f) == 0
    decreases |m.Keys|
  {
    if m != map[] {
      var k :| k in m;
      SumSplit(m, k, f);
      assert (m - {k}).Keys == m.Keys - {k};
      SumOfZeros(m - {k}, f);
    }
  }

  /** Dropping entries never raises a sum, and leaves it alone when they weigh nothing. */
  lemma {:induction false} SumDrop<K(!new), V(!new)>(m: map<K, V>, dropped: set<K>, f: (K, V) -> nat)
    ensures Sum(m - dropped, f) <= Sum(m, f)
    ensures (forall k :: k in m && k in dropped ==> f(k, m[k]) == 0) ==> Sum(m - dropped, f) == Sum(m, f)
    decreases |dropped|
  {
    if dropped == {} {
      assert m - dropped == m;
    } else {
      var k :| k in dropped;
      var rest := dropped - {k};
      assert m - dropped == m - rest - {k};
      SumRemove(m - rest, k, f);
      SumDrop(m, rest, f);
    }
  }

  ghost function LogSum<E(!new)>(log: seq<E>, f: E -> nat): nat {
    if |log| == 0 then 0 else LogSum(log[..|log| - 1], f) + f(log[|log| - 1])
  }

  lemma LogSumAppend<E(!new)>(log: seq<E>, e: E, f: E -> nat)
    ensures LogSum(log + [e], f) == LogSum(log, f) + f(e)
  {
    assert (log + [e])[..|log|] == log;
  }

  lemma {:induction false} LogSumConcat<E(!new)>(log: seq<E>, more: seq<E>, f: E -> nat)
    ensures LogSum(log + more, f) == LogSum(log, f) + LogSum(more, f)
    decreases |more|
  {
    if |more| == 0 {
      assert log + more == log;
    } else {
      var n := |more| - 1;
      LogSumConcat(log, more[..n], f);
      assert (log + more)[..|log| + n] == log + more[..n];
    }
  }
}
