/**
 * The sum of the values of a finite map. Used for the totals over a server's flow table
 * and over the per-second and per-flow tallies of the offline analysis.
 */
module Sums {

  /** Some key of a non-empty map: the one `Sum` takes out first. */
  ghost function Pick<K>(m: map<K, nat>): (k: K)
    requires |m| > 0
    ensures k in m
  {
    assert m.Keys != {};
    var k :| k in m.Keys; k
  }

  ghost function Sum<K>(m: map<K, nat>): nat
    decreases |m|
  {
    if |m| == 0 then 0
    else
      var k := Pick(m);
      assert (m - {k}).Keys == m.Keys - {k};
      m[k] + Sum(m - {k})
  }

  /** Any key may be taken out first; the choice made by `Sum` does not matter. */
  lemma {:induction false} SumRemove<K>(m: map<K, nat>, k: K)
    requires k in m
    ensures Sum(m) == m[k] + Sum(m - {k})
    decreases |m|
  {
    var j := Pick(m);
    if j != k {
      var mj, mk := m - {j}, m - {k};
      assert mj.Keys == m.Keys - {j} && mk.Keys == m.Keys - {k};
      assert |mj| < |m| && |mk| < |m|;
      assert k in mj && j in mk;
      SumRemove(mj, k);
      SumRemove(mk, j);
      assert mj - {k} == mk - {j};
    }
  }

  /** Overwriting (or adding) one key changes the sum by the difference of the two values. */
  lemma {:induction false} SumUpdate<K>(m: map<K, nat>, k: K, v: nat)
    ensures Sum(m[k := v]) + (if k in m then m[k] else 0) == Sum(m) + v
  {
    var u := m[k := v];
    assert Sum(u) == v + Sum(u - {k}) by { SumRemove(u, k); }
    if k in m {
      assert u - {k} == m - {k};
      assert Sum(m) == m[k] + Sum(m - {k}) by { SumRemove(m, k); }
    } else {
      assert u - {k} == m;
    }
  }

  /** Adding keys that map to zero leaves the sum unchanged. */
  lemma {:induction false} SumZeroExtension<K>(m: map<K, nat>, e: map<K, nat>)
    requires m.Keys <= e.Keys
    requires forall k :: k in e && k !in m ==> e[k] == 0
    requires forall k :: k in m ==> e[k] == m[k]
    ensures Sum(e) == Sum(m)
    decreases |e.Keys - m.Keys|
  {
    if e.Keys == m.Keys {
      assert e == m;
    } else {
      var z := ExtraKey(m, e);
      ZeroExtensionShrinks(m, e, z);
      SumZeroExtension(m, e - {z});
      SumRemove(e, z);
    }
  }

  /** Taking one extra key out of a zero extension leaves a smaller zero extension. */
  lemma ZeroExtensionShrinks<K>(m: map<K, nat>, e: map<K, nat>, z: K)
    requires m.Keys <= e.Keys
    requires forall k :: k in e && k !in m ==> e[k] == 0
    requires forall k :: k in m ==> e[k] == m[k]
    requires z in e && z !in m
    ensures var e' := e - {z};
      && m.Keys <= e'.Keys
      && (forall k :: k in e' && k !in m ==> e'[k] == 0)
      && (forall k :: k in m ==> e'[k] == m[k])
      && |e'.Keys - m.Keys| < |e.Keys - m.Keys|
      && e[z] == 0
  {
    var e' := e - {z};
    assert e'.Keys - m.Keys == (e.Keys - m.Keys) - {z};
  }

  /** A key of `e` that `m` lacks, when `e` has more keys. */
  ghost function ExtraKey<K>(m: map<K, nat>, e: map<K, nat>): (z: K)
    requires m.Keys <= e.Keys && e.Keys != m.Keys
    ensures z in e && z !in m
  {
    assert !(e.Keys <= m.Keys);
    var z :| z in e.Keys && z !in m.Keys; z
  }

  /** A map whose values are all at least one sums to at least its number of keys. */
  lemma {:induction false} SumAtLeastSize<K>(m: map<K, nat>)
    requires forall k :: k in m ==> m[k] >= 1
    ensures Sum(m) >= |m|
    decreases |m|
  {
    if |m| > 0 {
      var k :| k in m;
      SumRemove(m, k);
      SumAtLeastSize(m - {k});
    }
  }
}
