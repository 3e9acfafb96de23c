/** Optional values and finite sums, used by every other module. */
module Basics {

  datatype Option<+T> = None | Some(value: T)

  function Max(a: int, b: int): int {
    if a < b then b else a
  }

  lemma AtLeastOnce(d: int, unit: nat)
    requires d >= 1
    ensures d * unit >= unit
  {
  }

  /** Quotient and remainder are determined by the division equation. */
  lemma Quotient(n: nat, unit: nat, q: nat, rest: nat)
    requires n == q * unit + rest && rest < unit
    ensures n / unit == q && n % unit == rest
  {
    var d := n / unit - q;
    assert d * unit + n % unit == rest;
    if d > 0 {
      AtLeastOnce(d, unit);
    } else if d < 0 {
      AtLeastOnce(-d, unit);
    }
  }

  /** The sum of the values of a finite map. */
  ghost function Total(m: map<nat, nat>): nat
    decreases |m|
  {
    if m == map[] then 0
    else
      var k :| k in m;
      m[k] + Total(m - {k})
  }

  lemma {:induction false} TotalRemove(m: map<nat, nat>, k: nat)
    requires k in m
    ensures Total(m) == m[k] + Total(m - {k})
    decreases |m|
  {
    var first :| first in m && Total(m) == m[first] + Total(m - {first});
    if first != k {
      TotalRemove(m - {first}, k);
      TotalRemove(m - {k}, first);
      assert m - {first} - {k} == m - {k} - {first};
    }
  }

  /** Replacing the value of one key moves the sum by the difference. */
  lemma TotalReplace(m: map<nat, nat>, m': map<nat, nat>, k: nat)
    requires k in m && k in m' && m - {k} == m' - {k}
    ensures Total(m') as int - Total(m) == m'[k] as int - m[k]
  {
    TotalRemove(m, k);
    TotalRemove(m', k);
  }

  lemma {:induction false} TotalMonotone(m: map<nat, nat>, m': map<nat, nat>)
    requires m.Keys == m'.Keys
    requires forall k | k in m :: m'[k] <= m[k]
    ensures Total(m') <= Total(m)
    decreases |m|
  {
    if m == map[] {
      assert m' == map[];
    } else {
      var k :| k in m;
      TotalRemove(m, k);
      TotalRemove(m', k);
      TotalMonotone(m - {k}, m' - {k});
    }
  }

  /** A natural number outside a finite set. */
  lemma {:induction false} FreshNat(used: set<nat>) returns (n: nat)
    ensures forall k | k in used :: k < n
    decreases |used|
  {
    if used == {} {
      n := 0;
    } else {
      var k :| k in used;
      var rest := FreshNat(used - {k});
      n := Max(rest, k + 1);
      forall j | j in used ensures j < n {
        assert j == k || j in used - {k};
      }
    }
  }
}
