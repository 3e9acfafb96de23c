/** The delay before the next publish attempt of an outbox row. */
module Backoff {

  function Pow2(n: nat): (p: real)
    ensures p >= 1.0
  {
    if n == 0 then 1.0 else 2.0 * Pow2(n - 1)
  }

  /** From this many attempts on, converting the power to a float overflows
      and the computation raises. */
  const OVERFLOW_ATTEMPTS: nat := 1024

  function Delay(initial: real, cap: real, attempts: nat): real {
    var grown := initial * Pow2(attempts);
    if grown < cap then grown else cap
  }

  /** The delays granted after the first `k` failures, added up. */
  function DelaySum(initial: real, cap: real, k: nat): real {
    if k == 0 then 0.0 else DelaySum(initial, cap, k - 1) + Delay(initial, cap, k - 1)
  }

  /** The number of leading delays, among the first `k`, that stay below the cap. */
  function Uncapped(initial: real, cap: real, k: nat): (m: nat)
    ensures m <= k
  {
    if k == 0 then 0
    else if initial * Pow2(k - 1) < cap then k
    else Uncapped(initial, cap, k - 1)
  }

  lemma {:induction false} UncappedAreExactlyBelow(initial: real, cap: real, k: nat, i: nat)
    requires initial >= 0.0 && i < k
    ensures initial * Pow2(i) < cap <==> i < Uncapped(initial, cap, k)
  {
    if i == k - 1 {
      if initial * Pow2(k - 1) >= cap && k > 1 {
        assert Uncapped(initial, cap, k) <= k - 1;
      }
    } else if initial * Pow2(k - 1) < cap {
      Pow2Monotone(i, k - 1);
      Scale(initial, Pow2(i), Pow2(k - 1));
    } else {
      UncappedAreExactlyBelow(initial, cap, k - 1, i);
    }
  }

  lemma {:induction false} Pow2Monotone(i: nat, j: nat)
    requires i <= j
    ensures Pow2(i) <= Pow2(j)
  {
    if i < j {
      Pow2Monotone(i, j - 1);
    }
  }

  lemma Scale(a: real, x: real, y: real)
    requires a >= 0.0 && x <= y
    ensures a * x <= a * y
  {
  }

  /** A geometric part while the delay doubles, then the cap for every further failure. */
  function ClosedForm(initial: real, cap: real, m: nat, k: nat): real
    requires m <= k
  {
    initial * (Pow2(m) - 1.0) + (k - m) as real * cap
  }

  lemma ClosedFormDoubles(initial: real, cap: real, k: nat)
    ensures ClosedForm(initial, cap, k + 1, k + 1) == ClosedForm(initial, cap, k, k) + initial * Pow2(k)
  {
    Distribute(initial, Pow2(k));
    assert 0 as real * cap == 0.0;
  }

  lemma ClosedFormCapped(initial: real, cap: real, m: nat, k: nat)
    requires m <= k
    ensures ClosedForm(initial, cap, m, k + 1) == ClosedForm(initial, cap, m, k) + cap
  {
    assert (k + 1 - m) as real == (k - m) as real + 1.0;
  }

  lemma Distribute(a: real, p: real)
    ensures a * (2.0 * p - 1.0) == a * (p - 1.0) + a * p
  {
  }

  /** Up to the first delay that reaches the cap, none does. */
  lemma AllBelow(initial: real, cap: real, k: nat)
    requires initial >= 0.0 && initial * Pow2(k) < cap
    ensures Uncapped(initial, cap, k) == k && Uncapped(initial, cap, k + 1) == k + 1
  {
    if k > 0 {
      UncappedAreExactlyBelow(initial, cap, k + 1, k - 1);
    }
  }

  /** The first `k` delays add up to the closed form. */
  ghost predicate SumIsClosed(initial: real, cap: real, k: nat) {
    DelaySum(initial, cap, k) == ClosedForm(initial, cap, Uncapped(initial, cap, k), k)
  }

  lemma SumStarts(initial: real, cap: real)
    ensures SumIsClosed(initial, cap, 0)
  {
    assert Pow2(0) - 1.0 == 0.0 && 0 as real == 0.0;
  }

  lemma SumDoubles(initial: real, cap: real, k: nat)
    requires initial >= 0.0 && initial * Pow2(k) < cap && SumIsClosed(initial, cap, k)
    ensures SumIsClosed(initial, cap, k + 1)
  {
    AllBelow(initial, cap, k);
    ClosedFormDoubles(initial, cap, k);
  }

  lemma SumCapped(initial: real, cap: real, k: nat)
    requires initial * Pow2(k) >= cap && SumIsClosed(initial, cap, k)
    ensures SumIsClosed(initial, cap, k + 1)
  {
    ClosedFormCapped(initial, cap, Uncapped(initial, cap, k), k);
  }

  lemma {:induction false} SumIsAlwaysClosed(initial: real, cap: real, k: nat)
    requires initial >= 0.0
    ensures SumIsClosed(initial, cap, k)
  {
    if k == 0 {
      SumStarts(initial, cap);
    } else {
      SumIsAlwaysClosed(initial, cap, k - 1);
      if initial * Pow2(k - 1) < cap {
        SumDoubles(initial, cap, k - 1);
      } else {
        SumCapped(initial, cap, k - 1);
      }
    }
  }

  /** The accumulated delay in closed form. */
  lemma DelaySumClosedForm(initial: real, cap: real, k: nat)
    requires initial >= 0.0
    ensures DelaySum(initial, cap, k) == ClosedForm(initial, cap, Uncapped(initial, cap, k), k)
  {
    SumIsAlwaysClosed(initial, cap, k);
  }
}
