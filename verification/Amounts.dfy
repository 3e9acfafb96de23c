/** Decimal amounts and the column that stores them with four places. */
module Amounts {
  import opened Basics
  import opened Entities

  /** `coefficient` times ten to the power of `exponent`. */
  datatype Decimal = Decimal(coefficient: nat, exponent: int)

  const SCALE := 4
  const MAX_DIGITS := 20

  function Pow10(n: nat): (p: nat)
    ensures p >= 1
  {
    if n == 0 then 1 else 10 * Pow10(n - 1)
  }

  /** The value in units of the `k`-th decimal place. */
  function Units(d: Decimal, k: nat): nat
    requires d.exponent + k >= 0
  {
    d.coefficient * Pow10(d.exponent + k)
  }

  function Places(a: Decimal, b: Decimal): nat {
    Max(0, Max(-a.exponent, -b.exponent))
  }

  /** Decimals compare by value: 10.5 equals 10.5000. */
  predicate SameValue(a: Decimal, b: Decimal) {
    Units(a, Places(a, b)) == Units(b, Places(a, b))
  }

  /** No digit other than zero after the fourth place. */
  predicate FourPlaces(d: Decimal) {
    d.exponent >= -SCALE || d.coefficient % Pow10(-d.exponent - SCALE) == 0
  }

  /** A column with four places rounds what it stores, half up. */
  function Stored(d: Decimal): nat {
    if d.exponent >= -SCALE then Units(d, SCALE)
    else Rounded(d.coefficient, Pow10(-d.exponent - SCALE))
  }

  function Rounded(n: nat, unit: nat): nat
    requires unit >= 1
  {
    n / unit + if 2 * (n % unit) >= unit then 1 else 0
  }

  /** The value that is read back. */
  function ReadBack(stored: nat): Decimal {
    Decimal(stored, -SCALE)
  }

  /** An amount the request schema lets through: positive, four places, twenty digits. */
  predicate Allowed(d: Decimal) {
    d.coefficient > 0 && FourPlaces(d) && Stored(d) < Pow10(MAX_DIGITS)
  }

  lemma {:induction false} Pow10Sum(m: nat, n: nat)
    ensures Pow10(m + n) == Pow10(m) * Pow10(n)
  {
    if m > 0 {
      Pow10Sum(m - 1, n);
      Regroup(10, Pow10(m - 1), Pow10(n));
    }
  }

  lemma Regroup(a: nat, b: nat, c: nat)
    ensures a * (b * c) == (a * b) * c
  {
  }

  lemma UnitsShift(d: Decimal, k: nat, j: nat)
    requires d.exponent + k >= 0
    ensures Units(d, k + j) == Units(d, k) * Pow10(j)
  {
    Pow10Sum(d.exponent + k, j);
    Regroup(d.coefficient, Pow10(d.exponent + k), Pow10(j));
  }

  /** A zero more at the end, one place further: the same value. */
  lemma TrailingZeroIsNothing(d: Decimal)
    ensures SameValue(d, Decimal(10 * d.coefficient, d.exponent - 1))
  {
    var e := Decimal(10 * d.coefficient, d.exponent - 1);
    var k := Places(d, e);
    assert Pow10(d.exponent + k) == 10 * Pow10(e.exponent + k);
    Regroup(d.coefficient, 10, Pow10(e.exponent + k));
  }

  lemma Cancel(x: nat, y: nat, p: nat)
    requires p >= 1
    ensures x * p == y * p <==> x == y
  {
    if x < y {
      assert (y - x) * p >= 1;
    } else if y < x {
      assert (x - y) * p >= 1;
    }
  }

  /** Any common place serves for the comparison. */
  lemma SameValueAt(a: Decimal, b: Decimal, k: nat)
    requires a.exponent + k >= 0 && b.exponent + k >= 0
    ensures SameValue(a, b) <==> Units(a, k) == Units(b, k)
  {
    var least := Places(a, b);
    UnitsShift(a, least, k - least);
    UnitsShift(b, least, k - least);
    Cancel(Units(a, least), Units(b, least), Pow10(k - least));
  }

  /** With the same number of places, values are equal exactly if the digits are. */
  lemma SamePlaces(a: Decimal, b: Decimal)
    requires a.exponent == b.exponent
    ensures SameValue(a, b) <==> a.coefficient == b.coefficient
  {
    Cancel(a.coefficient, b.coefficient, Pow10(a.exponent + Places(a, b)));
  }

  /** The column counts units of the fourth place. */
  lemma StoredInFourPlaces(n: nat)
    ensures Stored(Decimal(n, -4)) == n && ReadBack(n) == Decimal(n, -4)
    ensures FourPlaces(Decimal(n, -4)) && (FourPlaces(Decimal(n, -5)) <==> n % 10 == 0)
    ensures Stored(Decimal(n, -5)) == if n % 10 >= 5 then n / 10 + 1 else n / 10
  {
    assert Pow10(1) == 10;
  }

  lemma RoundedMultiple(n: nat, unit: nat)
    requires unit >= 1
    ensures Rounded(n, unit) * unit == n <==> n % unit == 0
  {
    var q := Rounded(n, unit);
    if q * unit == n {
      Quotient(n, unit, q, 0);
    }
  }

  /** Storing keeps the value exactly when no digit lies beyond the fourth place. */
  lemma StoredExactlyIff(d: Decimal)
    ensures SameValue(ReadBack(Stored(d)), d) <==> FourPlaces(d)
  {
    if d.exponent >= -SCALE {
      SameValueAt(ReadBack(Stored(d)), d, SCALE);
    } else {
      var beyond: nat := -d.exponent - SCALE;
      SameValueAt(ReadBack(Stored(d)), d, SCALE + beyond);
      UnitsShift(ReadBack(Stored(d)), SCALE, beyond);
      RoundedMultiple(d.coefficient, Pow10(beyond));
    }
  }

  lemma SameValueTransitive(a: Decimal, b: Decimal, c: Decimal)
    requires SameValue(a, b)
    ensures SameValue(b, c) <==> SameValue(a, c)
  {
    var k := Max(Places(a, b), Max(0, -c.exponent));
    SameValueAt(a, b, k);
    SameValueAt(b, c, k);
    SameValueAt(a, c, k);
  }

  /** What the idempotency match sees: an amount sent again agrees with the one
      stored exactly when it has the same value, however it is written. */
  lemma ReplayAgreesIff(first: Decimal, again: Decimal)
    requires Allowed(first) && Allowed(again)
    ensures SameValue(ReadBack(Stored(first)), again) <==> SameValue(first, again)
    ensures Stored(first) == Stored(again) <==> SameValue(first, again)
  {
    StoredExactlyIff(first);
    StoredExactlyIff(again);
    SameValueTransitive(ReadBack(Stored(first)), first, again);
    SameValueTransitive(again, ReadBack(Stored(again)), ReadBack(Stored(first)));
    SameValueAt(ReadBack(Stored(first)), ReadBack(Stored(again)), SCALE);
  }

  lemma TwentyDigits()
    ensures Pow10(MAX_DIGITS) == 100_000_000_000_000_000_000
  {
    Pow10Sum(10, 10);
    Pow10Sum(5, 5);
    assert Pow10(1) == 10 && Pow10(2) == 100 && Pow10(3) == 1000 && Pow10(4) == 10000 && Pow10(5) == 100000;
  }

  /** An allowed amount is positive when stored, so the table's check never fails. */
  lemma AllowedIsPositive(d: Decimal)
    requires Allowed(d)
    ensures 0 < Stored(d) < 100_000_000_000_000_000_000
  {
    TwentyDigits();
    if d.exponent < -SCALE {
      var unit := Pow10(-d.exponent - SCALE);
      RoundedMultiple(d.coefficient, unit);
    }
  }

  /** Allowed are the positive amounts below ten to the sixteenth that the column
      holds exactly. */
  lemma AllowedIff(d: Decimal)
    ensures Allowed(d) <==> && d.coefficient > 0 && SameValue(ReadBack(Stored(d)), d)
                            && Stored(d) < 100_000_000_000_000_000_000
  {
    TwentyDigits();
    StoredExactlyIff(d);
  }

  /** A resent request agrees with the stored payment exactly when amount,
      currency and URL are the same, however the amount is written. */
  lemma TermsAgreeIff(first: Decimal, again: Decimal, currency: Currency, currency': Currency, url: string, url': string)
    requires Allowed(first) && Allowed(again)
    ensures Terms(Stored(first), currency, url) == Terms(Stored(again), currency', url')
            <==> SameValue(first, again) && currency == currency' && url == url'
  {
    ReplayAgreesIff(first, again);
  }
}
