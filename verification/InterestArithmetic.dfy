/** Daily interest: a rate divided by the days of the year to 16 decimals, times the balance,
    rounded to 4 decimals.

    Rates are whole multiples of 10^-8, daily rates of 10^-16 and money of 10^-4, as the
    columns and the decimal library keep them. */
module InterestArithmetic {
  import opened Decimals

  datatype Convention = Actual365 | Thirty360

  function DaysInYear(convention: Convention): nat {
    if convention == Thirty360 then 360 else 365
  }

  const TEN_8: nat := 100_000_000
  const TEN_16: nat := 10_000_000_000_000_000

  function DailyRate(rate: nat, convention: Convention): nat {
    RoundDiv(rate * TEN_8, DaysInYear(convention))
  }

  function Accrued(balance: nat, rate: nat, convention: Convention): nat {
    RoundDiv(balance * DailyRate(rate, convention), TEN_16)
  }

  lemma {:induction false} MulLe(x: int, y: int, k: nat)
    requires x <= y
    ensures x * k <= y * k
  {
  }

  lemma {:induction false} DailyRateBounds(rate: nat, convention: Convention)
    ensures var d, days := DailyRate(rate, convention), DaysInYear(convention);
            2 * rate * TEN_8 - days <= 2 * (d * days) <= 2 * rate * TEN_8 + days
  {
    hide RoundDiv;
  }

  lemma {:induction false} AccruedBounds(balance: nat, rate: nat, convention: Convention)
    ensures var product := balance * DailyRate(rate, convention);
            2 * product - TEN_16 < 2 * (Accrued(balance, rate, convention) * TEN_16) <= 2 * product + TEN_16
  {
    hide RoundDiv, DailyRate;
  }

  /** The balance times the two-sided bound on the daily rate. */
  lemma {:induction false} ScaledRateBounds(balance: nat, d: nat, days: nat, exact: nat)
    requires 2 * exact - days <= 2 * (d * days) <= 2 * exact + days
    ensures 2 * (balance * exact) - balance * days <= 2 * ((balance * d) * days) <= 2 * (balance * exact) + balance * days
  {
    MulLe(2 * exact - days, 2 * (d * days), balance);
    MulLe(2 * (d * days), 2 * exact + days, balance);
    assert (2 * exact - days) * balance == 2 * (balance * exact) - balance * days;
    assert (2 * exact + days) * balance == 2 * (balance * exact) + balance * days;
    assert (2 * (d * days)) * balance == 2 * ((balance * d) * days);
  }

  /** The bound of the second rounding times the days of the year. */
  lemma {:induction false} ScaledRounding(product: int, scaled: int, days: nat)
    requires 2 * product - TEN_16 <= 2 * scaled <= 2 * product + TEN_16
    ensures 2 * (product * days) - days * TEN_16 <= 2 * scaled * days <= 2 * (product * days) + days * TEN_16
  {
    MulLe(2 * product - TEN_16, 2 * scaled, days);
    MulLe(2 * scaled, 2 * product + TEN_16, days);
    assert (2 * product - TEN_16) * days == 2 * (product * days) - days * TEN_16;
    assert (2 * product + TEN_16) * days == 2 * (product * days) + days * TEN_16;
  }

  /** The two roundings together. */
  lemma {:induction false} RoundedTwice(balance: nat, rate: nat, convention: Convention)
    ensures var days := DaysInYear(convention);
            var exact := 2 * (balance * (rate * TEN_8));
            var stored := 2 * (Accrued(balance, rate, convention) * TEN_16) * days;
            exact - days * TEN_16 - balance * days <= stored <= exact + days * TEN_16 + balance * days
  {
    var d, days, amount := DailyRate(rate, convention), DaysInYear(convention), Accrued(balance, rate, convention);
    DailyRateBounds(rate, convention);
    AccruedBounds(balance, rate, convention);
    hide DailyRate, Accrued, DaysInYear;
    var product, scaled := balance * d, amount * TEN_16;
    ScaledRateBounds(balance, d, days, rate * TEN_8);
    ScaledRounding(product, scaled, days);
  }

  /** The accrued amount differs from balance * rate / days by at most 0.5 * 10^-4 plus
      balance * 0.5 * 10^-16.  Both sides are multiplied by 2 * days * 10^20 to stay whole. */
  lemma {:induction false} ErrorBound(balance: nat, rate: nat, convention: Convention)
    ensures var days := if convention == Thirty360 then 360 else 365;
            var exact := 2 * (balance * (rate * TEN_8));
            var stored := 2 * (Accrued(balance, rate, convention) * TEN_16) * days;
            exact - days * TEN_16 - balance * days <= stored <= exact + days * TEN_16 + balance * days
  {
    hide Accrued;
    RoundedTwice(balance, rate, convention);
    assert DaysInYear(convention) == if convention == Thirty360 then 360 else 365;
  }

  /** More money or a higher rate never accrues less. */
  lemma {:induction false} Monotone(balance: nat, rate: nat, balance': nat, rate': nat, convention: Convention)
    requires balance <= balance' && rate <= rate'
    ensures Accrued(balance, rate, convention) <= Accrued(balance', rate', convention)
  {
    var d, d' := DailyRate(rate, convention), DailyRate(rate', convention);
    RoundDivMonotone(rate * TEN_8, rate' * TEN_8, DaysInYear(convention));
    hide RoundDiv;
    MulLe(balance, balance', d);
    MulLe(d, d', balance');
    RoundDivMonotone(balance * d, balance' * d', TEN_16);
  }

  /** Splitting a balance over two accounts changes the total by at most one unit of 0.0001. */
  lemma {:induction false} Splitting(x: nat, y: nat, rate: nat, convention: Convention)
    ensures -1 <= Accrued(x, rate, convention) + Accrued(y, rate, convention) - Accrued(x + y, rate, convention) <= 1
  {
    var d := DailyRate(rate, convention);
    AccruedBounds(x, rate, convention);
    AccruedBounds(y, rate, convention);
    AccruedBounds(x + y, rate, convention);
    hide Accrued, DailyRate;
    assert (x + y) * d == x * d + y * d;
  }

  /** The bound is met: at 5% a year, 0.3650 twice accrues one unit more than 0.7300 once. */
  lemma {:induction false} SplittingCanGain()
    ensures Accrued(3650, 5_000_000, Actual365) == 1 && Accrued(7300, 5_000_000, Actual365) == 1
  {
    assert DailyRate(5_000_000, Actual365) == 1_369_863_013_699;
  }
}
