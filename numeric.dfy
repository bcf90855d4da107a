/**
 * Arithmetic helpers shared by the scoring code: `Math.max`/`Math.min`,
 * the `clamp` helper of the radar charts, and the sum of the values of a
 * map (the `sum += ratio` loops over a `Map` or an object's entries).
 * All arithmetic is on exact reals.
 */
module Numeric {

  function Max(a: real, b: real): real { if a >= b then a else b }

  function Min(a: real, b: real): real { if a <= b then a else b }

  /** `clamp(v, a, b) = Math.max(a, Math.min(b, v))`. */
  function Clamp(v: real, lo: real, hi: real): (r: real)
    ensures lo <= hi ==> lo <= r <= hi
    ensures lo <= v <= hi ==> r == v
    ensures lo <= hi <= v ==> r == hi
    ensures v <= lo ==> r == lo
  {
    Max(lo, Min(hi, v))
  }

  /** The sum of `m[k]` over the keys `ks`, taken in no particular order. */
  ghost function SumOn<K>(ks: set<K>, m: map<K, real>): real
    requires ks <= m.Keys
    decreases ks
  {
    if ks == {} then 0.0
    else
      var k :| k in ks;
      m[k] + SumOn(ks - {k}, m)
  }

  /** The sum of the values of a finite map. */
  ghost function SumValues<K>(m: map<K, real>): real
  {
    SumOn(m.Keys, m)
  }

  /** Any key may be taken out first: the sum does not depend on the order. */
  lemma {:induction false} SumOnRemove<K>(ks: set<K>, m: map<K, real>, k: K)
    requires ks <= m.Keys && k in ks
    ensures SumOn(ks, m) == m[k] + SumOn(ks - {k}, m)
    decreases ks
  {
    var j :| j in ks && SumOn(ks, m) == m[j] + SumOn(ks - {j}, m);
    if j != k {
      assert ks - {j} - {k} == ks - {k} - {j};
      SumOnRemove(ks - {j}, m, k);
      SumOnRemove(ks - {k}, m, j);
    }
  }

  /** Summing over one more key adds its value. */
  lemma SumOnAdd<K>(ks: set<K>, m: map<K, real>, k: K)
    requires ks <= m.Keys && k in m && k !in ks
    ensures SumOn(ks + {k}, m) == SumOn(ks, m) + m[k]
    ensures |ks + {k}| == |ks| + 1
  {
    SumOnRemove(ks + {k}, m, k);
    assert ks + {k} - {k} == ks;
  }

  /**
   * One step of a loop that visits the keys in `pending` and sums the ones
   * in `m`: visiting `k` takes `m[k]` out of what is left to sum exactly
   * when `k` is a key of `m`.
   */
  lemma SumOnTake<K>(m: map<K, real>, pending: set<K>, k: K)
    requires k in pending
    ensures k !in m ==> (pending - {k}) * m.Keys == pending * m.Keys
    ensures k in m ==> SumOn(pending * m.Keys, m) == m[k] + SumOn((pending - {k}) * m.Keys, m)
    ensures k in m ==> |pending * m.Keys| == |(pending - {k}) * m.Keys| + 1
  {
    if k in m {
      assert (pending - {k}) * m.Keys == pending * m.Keys - {k};
      SumOnRemove(pending * m.Keys, m, k);
    }
  }

  /** Only the values on the keys summed over matter. */
  lemma {:induction false} SumOnAgree<K>(ks: set<K>, m: map<K, real>, m': map<K, real>)
    requires ks <= m.Keys && ks <= m'.Keys
    requires forall k :: k in ks ==> m[k] == m'[k]
    ensures SumOn(ks, m) == SumOn(ks, m')
    decreases ks
  {
    if ks != {} {
      var k :| k in ks && SumOn(ks, m) == m[k] + SumOn(ks - {k}, m);
      SumOnRemove(ks, m', k);
      SumOnAgree(ks - {k}, m, m');
    }
  }

  /** Adding a fresh key adds its value to the sum. */
  lemma SumValuesAdd<K>(m: map<K, real>, k: K, v: real)
    requires k !in m
    ensures SumValues(m[k := v]) == SumValues(m) + v
  {
    var m' := m[k := v];
    SumOnRemove(m'.Keys, m', k);
    assert m'.Keys - {k} == m.Keys;
    SumOnAgree(m.Keys, m', m);
  }

  /** A sum of values in `[0, 1]` lies in `[0, |ks|]`. */
  lemma {:induction false} SumOnUnit<K>(ks: set<K>, m: map<K, real>)
    requires ks <= m.Keys
    requires forall k :: k in ks ==> 0.0 <= m[k] <= 1.0
    ensures 0.0 <= SumOn(ks, m) <= |ks| as real
    decreases ks
  {
    if ks != {} {
      var k :| k in ks && SumOn(ks, m) == m[k] + SumOn(ks - {k}, m);
      SumOnUnit(ks - {k}, m);
    }
  }

  /** A sum of positive values over a non-empty key set is positive. */
  lemma {:induction false} SumOnPositive<K>(ks: set<K>, m: map<K, real>)
    requires ks <= m.Keys && ks != {}
    requires forall k :: k in ks ==> m[k] > 0.0
    ensures SumOn(ks, m) > 0.0
    decreases ks
  {
    var k :| k in ks && SumOn(ks, m) == m[k] + SumOn(ks - {k}, m);
    if ks - {k} != {} {
      SumOnPositive(ks - {k}, m);
    } else {
      assert SumOn(ks - {k}, m) == 0.0;
    }
  }

  /** A map whose values lie in `[0, 1]` sums to a value in `[0, |m|]`. */
  lemma SumValuesUnit<K>(m: map<K, real>)
    requires forall k :: k in m ==> 0.0 <= m[k] <= 1.0
    ensures 0.0 <= SumValues(m) <= |m| as real
  {
    SumOnUnit(m.Keys, m);
    assert |m.Keys| == |m|;
  }

  /** A map of positive values that is not empty sums to a positive value. */
  lemma SumValuesPositive<K>(m: map<K, real>)
    requires |m| > 0
    requires forall k :: k in m ==> m[k] > 0.0
    ensures SumValues(m) > 0.0
  {
    assert |m.Keys| == |m|;
    SumOnPositive(m.Keys, m);
  }

  /** A map whose values are all 1 sums to its size. */
  lemma SumValuesConst<K>(m: map<K, real>)
    requires forall k :: k in m ==> m[k] == 1.0
    ensures SumValues(m) == |m| as real
  {
    SumOnUnit(m.Keys, m);
    assert |m.Keys| == |m|;
    SumOnAtLeast(m.Keys, m);
  }

  /** A sum of ones is at least the number of keys. */
  lemma {:induction false} SumOnAtLeast<K>(ks: set<K>, m: map<K, real>)
    requires ks <= m.Keys
    requires forall k :: k in ks ==> m[k] == 1.0
    ensures SumOn(ks, m) >= |ks| as real
    decreases ks
  {
    if ks != {} {
      var k :| k in ks;
      SumOnRemove(ks, m, k);
      SumOnAtLeast(ks - {k}, m);
    }
  }

  /** A map whose values are all 0 sums to 0. */
  lemma SumValuesZero<K>(m: map<K, real>)
    requires forall k :: k in m ==> m[k] == 0.0
    ensures SumValues(m) == 0.0
  {
    SumOnZero(m.Keys, m);
  }

  /** A sum of zeros is 0. */
  lemma {:induction false} SumOnZero<K>(ks: set<K>, m: map<K, real>)
    requires ks <= m.Keys
    requires forall k :: k in ks ==> m[k] == 0.0
    ensures SumOn(ks, m) == 0.0
  {
    if ks != {} {
      var k :| k in ks;
      SumOnRemove(ks, m, k);
      SumOnZero(ks - {k}, m);
    }
  }

  /** The mean of `n > 0` values in `[0, 1]` lies in `[0, 1]`. */
  lemma MeanInUnit(sum: real, n: real)
    requires n > 0.0 && 0.0 <= sum <= n
    ensures 0.0 <= sum / n <= 1.0
    ensures sum == n ==> sum / n == 1.0
    ensures sum / n == 0.0 <==> sum == 0.0
  {
    var q := sum / n;
    assert q * n == sum;
  }
}
