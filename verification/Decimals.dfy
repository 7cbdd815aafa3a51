/** Exact decimals and their storage in a DECIMAL(19,4) column.

    Every amount is counted in units of 0.0001.  A requested amount has any number
    of decimals, so it is an exact `real`; a stored amount is an `int`.  Storing
    rounds to the nearest unit, ties away from zero. */
module Decimals {

  /** The value a DECIMAL(19,4) column keeps for `x`. */
  function Round(x: real): (n: int)
    ensures x >= 0.0 ==> n as real - 0.5 <= x < n as real + 0.5
    ensures x <= 0.0 ==> n as real - 0.5 < x <= n as real + 0.5
  {
    if x >= 0.0 then (x + 0.5).Floor else -((0.5 - x).Floor)
  }

  /** `x` lies exactly half way between two stored values. */
  predicate IsTie(x: real) {
    x - x.Floor as real == 0.5
  }

  /** A DECIMAL(19,4) column holds fewer than 10^15 whole units. */
  predicate Fits(n: int) {
    -10_000_000_000_000_000_000 < n < 10_000_000_000_000_000_000
  }

  lemma {:induction false} FitsIff(n: int)
    ensures Fits(n) <==> -1_000_000_000_000_000.0 < n as real / 10_000.0 < 1_000_000_000_000_000.0
  {
    assert n as real == n as real / 10_000.0 * 10_000.0;
  }

  lemma {:induction false} RoundWhole(n: int)
    ensures Round(n as real) == n
  {
  }

  /** Adding to a stored, non-negative balance and then rounding adds the stored amount. */
  lemma {:induction false} RoundCredit(balance: int, amount: real)
    requires balance >= 0 && amount >= 0.0
    ensures Round(balance as real + amount) == balance + Round(amount)
  {
  }

  /** Subtracting and then rounding keeps one unit too much exactly on a tie, and an
      amount covered by the balance is still covered once it is rounded. */
  lemma {:induction false} RoundDebit(balance: int, amount: real)
    requires 0.0 <= amount <= balance as real
    ensures Round(amount) <= balance
    ensures Round(balance as real - amount)
         == balance - Round(amount) + (if IsTie(amount) then 1 else 0)
  {
    var whole, part := amount.Floor, amount - amount.Floor as real;
    assert Round(amount) == if part < 0.5 then whole else whole + 1;
    assert balance as real - amount == (balance - whole) as real - part;
  }

  /** Different whole amounts taken away leave different rounded values. */
  lemma {:induction false} RoundShift(x: real, k: nat)
    requires Round(x - k as real) == Round(x)
    ensures k == 0
  {
  }

  /** Integer division rounded to the nearest integer, ties away from zero: what the
      decimal library does when it divides or rounds a non-negative number. */
  function RoundDiv(n: nat, d: nat): (q: nat)
    requires d > 0
    ensures 2 * n - d < 2 * (q * d) <= 2 * n + d
  {
    RoundDivBounds(n, d);
    (2 * n + d) / (2 * d)
  }

  lemma {:induction false} RoundDivBounds(n: nat, d: nat)
    requires d > 0
    ensures var q := (2 * n + d) / (2 * d); q >= 0 && 2 * n - d < 2 * (q * d) <= 2 * n + d
  {
    var m, k := 2 * n + d, 2 * d;
    var q := m / k;
    assert m == q * k + m % k;
    assert q * k == 2 * (q * d);
  }

  lemma {:induction false} MulGap(p: int, q: int, d: nat)
    requires p > q
    ensures p * d >= q * d + d
    decreases p - q
  {
    assert p * d == (p - 1) * d + d;
    if p > q + 1 { MulGap(p - 1, q, d); }
  }

  lemma {:induction false} RoundDivMonotone(m: nat, n: nat, d: nat)
    requires d > 0 && m <= n
    ensures RoundDiv(m, d) <= RoundDiv(n, d)
  {
    hide RoundDiv;
    if RoundDiv(m, d) > RoundDiv(n, d) {
      MulGap(RoundDiv(m, d), RoundDiv(n, d), d);
    }
  }
}
