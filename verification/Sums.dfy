/** Sums and maxima over finite maps: what SQL's SUM and the max loops compute,
    independent of the order in which rows are visited. */
module Sums {

  ghost function Pick<K>(s: set<K>): (k: K)
    requires s != {}
    ensures k in s
  {
    var k :| k in s; k
  }

  /** The sum of f over all entries of m. */
  ghost function Sum<K, V>(m: map<K, V>, f: (K, V) -> real): real
    decreases m.Keys
  {
    if m.Keys == {} then 0.0
    else
      var k := Pick(m.Keys);
      assert (m - {k}).Keys < m.Keys;
      f(k, m[k]) + Sum(m - {k}, f)
  }

  /** The order of summation is irrelevant: any key may be taken out first. */
  lemma {:induction false} SumRemove<K, V>(m: map<K, V>, f: (K, V) -> real, k: K)
    requires k in m
    ensures Sum(m, f) == f(k, m[k]) + Sum(m - {k}, f)
    decreases m.Keys
  {
    var p := Pick(m.Keys);
    if p != k {
      assert (m - {p}).Keys < m.Keys && (m - {k}).Keys < m.Keys;
      SumRemove(m - {p}, f, k);
      SumRemove(m - {k}, f, p);
      assert m - {p} - {k} == m - {k} - {p};
    }
  }

  lemma SumUpdate<K, V>(m: map<K, V>, f: (K, V) -> real, k: K, v: V)
    ensures k in m ==> Sum(m[k := v], f) == Sum(m, f) - f(k, m[k]) + f(k, v)
    ensures k !in m ==> Sum(m[k := v], f) == Sum(m, f) + f(k, v)
  {
    var m' := m[k := v];
    SumRemove(m', f, k);
    if k in m {
      SumRemove(m, f, k);
      assert m' - {k} == m - {k};
    } else {
      assert m' - {k} == m;
    }
  }

  /** A sum of n entries, each at most b, is at most n * b. */
  lemma {:induction false} SumAtMost<K, V>(m: map<K, V>, f: (K, V) -> real, b: real)
    requires forall k :: k in m ==> f(k, m[k]) <= b
    ensures Sum(m, f) <= |m| as real * b
    decreases m.Keys
  {
    if m.Keys != {} {
      var p := Pick(m.Keys);
      var rest := m - {p};
      assert rest.Keys == m.Keys - {p};
      SumAtMost(rest, f, b);
      assert |m| == |m.Keys| == |rest.Keys| + 1 == |rest| + 1;
      assert |m| as real * b == |rest| as real * b + b;
    }
  }

  /** The largest value of m, or zero: what a loop starting at `max = 0` leaves. */
  ghost function MaxOrZero<K>(m: map<K, real>): (r: real)
    ensures r >= 0.0
    ensures forall k :: k in m ==> m[k] <= r
    ensures r == 0.0 || exists k :: k in m && m[k] == r
    decreases m.Keys
  {
    if m.Keys == {} then 0.0
    else
      var k := Pick(m.Keys);
      assert (m - {k}).Keys < m.Keys;
      var rest := MaxOrZero(m - {k});
      assert forall j :: j in m ==> j == k || (j in m - {k} && (m - {k})[j] == m[j]);
      if m[k] > rest then m[k] else rest
  }

  /** Any value meeting the three clauses is that maximum. */
  lemma MaxOrZeroUnique<K>(m: map<K, real>, r: real)
    requires r >= 0.0
    requires forall k :: k in m ==> m[k] <= r
    requires r == 0.0 || exists k :: k in m && m[k] == r
    ensures r == MaxOrZero(m)
  {
  }

  function Identity<K>(): (K, real) -> real {
    (k, x) => x
  }
}
