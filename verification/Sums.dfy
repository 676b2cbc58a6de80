/** Sums of a measure over the values of a finite map, pairs of measures as one number, and what
    a measure that falls gives. */
module Sums {

  ghost function Sum<K, V>(m: map<K, V>, f: V -> nat): nat {
    if m == map[] then 0
    else
      var k :| k in m;
      f(m[k]) + Sum(m - {k}, f)
  }

  lemma {:induction false} SumRemove<K, V>(m: map<K, V>, f: V -> nat, k: K)
    requires k in m
    ensures Sum(m, f) == f(m[k]) + Sum(m - {k}, f)
    decreases |m|
  {
    var j :| j in m && Sum(m, f) == f(m[j]) + Sum(m - {j}, f);
    if j != k {
      SumRemove(m - {j}, f, k);
      SumRemove(m - {k}, f, j);
      assert m - {j} - {k} == m - {k} - {j};
    }
  }

  lemma SumUpdate<K, V>(m: map<K, V>, f: V -> nat, k: K, v: V)
    ensures Sum(m[k := v], f) == Sum(m, f) - (if k in m then f(m[k]) else 0) + f(v)
  {
    SumRemove(m[k := v], f, k);
    if k in m {
      SumRemove(m, f, k);
      assert m[k := v] - {k} == m - {k};
    } else {
      assert m[k := v] - {k} == m;
    }
  }

  /** In a sequence of states, each step keeps `p` and decreases `m`. */
  lemma {:induction false} Descends<T>(xs: seq<T>, n: nat, p: T -> bool, m: T -> nat)
    requires n < |xs| && p(xs[0])
    requires forall i: nat :: i + 1 < |xs| && p(xs[i]) ==> p(xs[i + 1]) && m(xs[i + 1]) < m(xs[i])
    ensures p(xs[n]) && m(xs[n]) + n <= m(xs[0])
  {
    if n > 0 {
      Descends(xs, n - 1, p, m);
      assert p(xs[n - 1 + 1]);
    }
  }

  /** `a` times `b`; `Times(a, n + 1) + c` with `c <= n` orders pairs by `a` first. */
  function Times(a: nat, b: nat): nat {
    if a == 0 then 0 else Times(a - 1, b) + b
  }

  lemma {:induction false} TimesGrows(a: nat, b: nat, m: nat)
    requires a < b
    ensures Times(a, m) + m <= Times(b, m)
  {
    if a + 1 < b {
      TimesGrows(a, b - 1, m);
    }
  }

  lemma {:induction false} TimesMore(a: nat, m: nat, n: nat)
    requires m <= n
    ensures Times(a, m) <= Times(a, n)
  {
    if a > 0 {
      TimesMore(a - 1, m, n);
    }
  }
}
