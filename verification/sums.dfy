/** Sums of the values of finite maps, with the few facts the ledger's accounting needs. */
module Sums {

  /** The sum of all values of `m`. Keys are taken in no particular order. */
  ghost function Sum<K>(m: map<K, nat>): nat
    decreases |m|
  {
    if m == map[] then 0
    else
      var k :| k in m;
      m[k] + Sum(m - {k})
  }

  /** Any key can be taken out first: the sum does not depend on the order of keys. */
  lemma {:induction false} SumRemove<K>(m: map<K, nat>, k: K)
    requires k in m
    ensures Sum(m) == m[k] + Sum(m - {k})
    decreases |m|
  {
    var j :| j in m && Sum(m) == m[j] + Sum(m - {j});
    if j != k {
      SumRemove(m - {j}, k);
      SumRemove(m - {k}, j);
      assert m - {j} - {k} == m - {k} - {j};
    }
  }

  /** Replacing (or adding) the value at one key changes the sum by exactly the difference. */
  lemma SumUpdate<K>(m: map<K, nat>, k: K, v: nat)
    ensures Sum(m[k := v]) + (if k in m then m[k] else 0) == Sum(m) + v
  {
    SumRemove(m[k := v], k);
    if k in m {
      SumRemove(m, k);
      assert m[k := v] - {k} == m - {k};
    } else {
      assert m[k := v] - {k} == m;
    }
  }

  /** A map whose values are all zero sums to zero. */
  lemma {:induction false} SumOfZeros<K>(m: map<K, nat>)
    requires forall k :: k in m ==> m[k] == 0
    ensures Sum(m) == 0
    decreases |m|
  {
    if m != map[] {
      var k :| k in m;
      SumRemove(m, k);
      SumOfZeros(m - {k});
    }
  }

  /** Scaled comparison of two sums. If every value of `f` is bounded, after scaling by `w`,
      by the value of `g` at the same key scaled by `p`, and `f` is zero off the keys of `g`,
      then the same bound holds between the sums. */
  lemma {:induction false} SumScaledBound<K>(f: map<K, nat>, g: map<K, nat>, w: nat, p: nat)
    requires g.Keys <= f.Keys
    requires forall k :: k in g ==> w * f[k] <= p * g[k]
    requires forall k :: k in f && k !in g ==> f[k] == 0
    ensures w * Sum(f) <= p * Sum(g)
    decreases |f|
  {
    if f == map[] {
      assert g == map[];
    } else {
      var k :| k in f;
      SumRemove(f, k);
      if k in g {
        SumRemove(g, k);
        SumScaledBound(f - {k}, g - {k}, w, p);
        ScaledAdd(w, p, f[k], Sum(f - {k}), g[k], Sum(g - {k}));
      } else {
        SumScaledBound(f - {k}, g, w, p);
      }
    }
  }

  /** Two scaled bounds add up. */
  lemma ScaledAdd(w: nat, p: nat, a: nat, x: nat, b: nat, y: nat)
    requires w * a <= p * b && w * x <= p * y
    ensures w * (a + x) <= p * (b + y)
  {
  }
}
