/** What an accrual puts on record: for whom, on which balance, at which rate, and how much. */
module AccrualRecords {
  import opened Common
  import opened Decimals
  import opened Ledger
  import opened Accruals
  import opened Bank
  import opened InterestArithmetic

  /** The recorded amount is one day's interest on the principal in a year of 365 days: off by
      at most 0.5 * 10^-4 plus principal * 0.5 * 10^-16.  Both sides are multiplied by
      2 * 365 * 10^20 to stay whole. */
  predicate OneDayOf365(x: Accrual) {
    && x.principal > 0 && x.amount > 0
    && 2 * (x.principal * (x.rate * TEN_8)) - 365 * TEN_16 - 365 * x.principal
       <= 2 * (x.amount * TEN_16) * 365
       <= 2 * (x.principal * (x.rate * TEN_8)) + 365 * TEN_16 + 365 * x.principal
  }

  lemma {:induction false} AccruedIsOneDay(principal: nat, rate: nat)
    requires principal > 0 && Accrued(principal, rate, Actual365) > 0
    ensures OneDayOf365(Accrual(principal, rate, Accrued(principal, rate, Actual365), false))
  {
    ErrorBound(principal, rate, Actual365);
    hide Accrued;
  }

  /** Every new record is unposted, for the date and an account of the list, on that account's
      balance and at the given rate. */
  predicate NewRecord(before: Table, balance: AccountId -> int, date: int, rate: nat, order: seq<AccountId>,
                      after: Table, x: Slot)
    requires x in after
  {
    && x.date == date && x.account in order && !after[x].posted
    && after[x].principal == balance(x.account) && after[x].rate == rate && OneDayOf365(after[x])
  }

  lemma {:induction false} AccrueAllRecords(accruals: Table, balance: AccountId -> int, date: int, rate: nat,
                                            order: seq<AccountId>, fault: Option<nat>)
    ensures var after := AccrueAll(accruals, balance, date, rate, order, fault).accruals;
            forall x <- after :: x !in accruals ==> NewRecord(accruals, balance, date, rate, order, after, x)
    decreases |order|
  {
    hide OneDayOf365, Fits;
    if order != [] {
      var a, principal := order[0], balance(order[0]);
      var amount := if principal <= 0 then 0 else Accrued(principal, rate, Actual365);
      var later := if fault == None || fault.value == 0 then None else Some(fault.value - 1);
      var more := accruals[Slot(date, a) := Accrual(principal, rate, amount, false)];
      AccrueAllRecords(accruals, balance, date, rate, order[1..], later);
      AccrueAllRecords(more, balance, date, rate, order[1..], later);
      AccrueAllKeeps(more, balance, date, rate, order[1..], later);
      if amount > 0 { AccruedIsOneDay(principal, rate); }
      hide Accrued;
    }
  }

  /** The account has a day's interest of at least one unit. */
  predicate Due(balance: AccountId -> int, rate: nat, a: AccountId) {
    balance(a) > 0 && Accrued(balance(a), rate, Actual365) > 0
  }

  /** An accrual that completes records exactly the accounts of the list with interest due. */
  lemma {:induction false} CompletedAdds(accruals: Table, balance: AccountId -> int, date: int, rate: nat,
                                         order: seq<AccountId>, fault: Option<nat>, x: Slot)
    requires AccrueAll(accruals, balance, date, rate, order, fault).completed
    ensures x in AccrueAll(accruals, balance, date, rate, order, fault).accruals && x !in accruals
       <==> x.date == date && x.account in order && Due(balance, rate, x.account)
    decreases |order|
  {
    hide Accrued, Fits;
    if order != [] {
      var a, principal := order[0], balance(order[0]);
      var amount := if principal <= 0 then 0 else Accrued(principal, rate, Actual365);
      var later := if fault == None || fault.value == 0 then None else Some(fault.value - 1);
      assert forall b :: b in order <==> b == a || b in order[1..];
      if amount == 0 {
        CompletedAdds(accruals, balance, date, rate, order[1..], later, x);
      } else {
        var more := accruals[Slot(date, a) := Accrual(principal, rate, amount, false)];
        CompletedAdds(more, balance, date, rate, order[1..], later, x);
        AccrueAllKeeps(more, balance, date, rate, order[1..], later);
      }
    }
  }

  predicate NoRepeats(order: seq<AccountId>) { forall i, j | 0 <= i < j < |order| :: order[i] != order[j] }

  /** The insert for account `i` of the list fails: there is interest due, and it is on record
      for that date already, does not fit its column, or the call itself fails. */
  predicate Refused(accruals: Table, balance: AccountId -> int, date: int, rate: nat, order: seq<AccountId>,
                    fault: Option<nat>, i: nat)
    requires i < |order|
  {
    var a := order[i];
    Due(balance, rate, a)
    && (Slot(date, a) in accruals || !Fits(Accrued(balance(a), rate, Actual365)) || fault == Some(i))
  }

  function Later(fault: Option<nat>): Option<nat> {
    if fault == None || fault.value == 0 then None else Some(fault.value - 1)
  }

  /** What is refused of the rest of the list does not depend on the first insert. */
  lemma {:induction false} RefusedLater(accruals: Table, balance: AccountId -> int, date: int, rate: nat,
                                        order: seq<AccountId>, fault: Option<nat>, first: Accrual, j: nat)
    requires NoRepeats(order) && j + 1 < |order|
    ensures Refused(accruals, balance, date, rate, order, fault, j + 1)
       <==> Refused(accruals, balance, date, rate, order[1..], Later(fault), j)
    ensures Refused(accruals, balance, date, rate, order, fault, j + 1)
       <==> Refused(accruals[Slot(date, order[0]) := first], balance, date, rate, order[1..], Later(fault), j)
  {
    hide Accrued, Fits;
  }

  /** An accrual completes exactly if no insert is refused. */
  lemma {:induction false} CompletedIff(accruals: Table, balance: AccountId -> int, date: int, rate: nat,
                                        order: seq<AccountId>, fault: Option<nat>)
    requires NoRepeats(order)
    ensures AccrueAll(accruals, balance, date, rate, order, fault).completed
       <==> forall i | 0 <= i < |order| :: !Refused(accruals, balance, date, rate, order, fault, i)
    decreases |order|
  {
    if order != [] {
      var a, principal, rest := order[0], balance(order[0]), order[1..];
      var amount := if principal <= 0 then 0 else Accrued(principal, rate, Actual365);
      var first := Accrual(principal, rate, amount, false);
      var table := if amount == 0 then accruals else accruals[Slot(date, a) := first];
      CompletedIff(table, balance, date, rate, rest, Later(fault));
      forall i | 0 < i < |order|
        ensures Refused(accruals, balance, date, rate, order, fault, i)
           <==> Refused(table, balance, date, rate, rest, Later(fault), i - 1)
      {
        RefusedLater(accruals, balance, date, rate, order, fault, first, i - 1);
      }
      assert Refused(accruals, balance, date, rate, order, fault, 0)
        <==> amount > 0 && (Slot(date, a) in accruals || !Fits(amount) || fault == Some(0));
      hide Refused, Accrued, Fits;
      assert forall j | 0 <= j < |rest| :: Refused(table, balance, date, rate, rest, Later(fault), j)
                                      <==> Refused(accruals, balance, date, rate, order, fault, j + 1);
    }
  }

  /** Account `k` of the list is the first whose insert is refused. */
  predicate FirstRefused(accruals: Table, balance: AccountId -> int, date: int, rate: nat, order: seq<AccountId>,
                         fault: Option<nat>, k: nat)
    requires k < |order|
  {
    && Refused(accruals, balance, date, rate, order, fault, k)
    && forall i | 0 <= i < k :: !Refused(accruals, balance, date, rate, order, fault, i)
  }

  lemma {:induction false} StopsAtFirst(accruals: Table, balance: AccountId -> int, date: int, rate: nat,
                                        order: seq<AccountId>, fault: Option<nat>, k: nat)
    requires NoRepeats(order) && k < |order| && FirstRefused(accruals, balance, date, rate, order, fault, k)
    ensures AccrueAll(accruals, balance, date, rate, order, fault).accruals
         == AccrueAll(accruals, balance, date, rate, order[..k], None).accruals
    ensures AccrueAll(accruals, balance, date, rate, order[..k], None).completed
    decreases |order|
  {
    var a, principal, rest := order[0], balance(order[0]), order[1..];
    var amount := if principal <= 0 then 0 else Accrued(principal, rate, Actual365);
    var first := Accrual(principal, rate, amount, false);
    var table := if amount == 0 then accruals else accruals[Slot(date, a) := first];
    if k > 0 {
      assert order[..k][1..] == rest[..k - 1] && order[..k][0] == a;
      assert !Refused(accruals, balance, date, rate, order, fault, 0);
      forall i | 0 <= i < |rest|
        ensures Refused(accruals, balance, date, rate, order, fault, i + 1)
           <==> Refused(table, balance, date, rate, rest, Later(fault), i)
      {
        RefusedLater(accruals, balance, date, rate, order, fault, first, i);
      }
      assert amount > 0 ==> Slot(date, a) !in accruals && Fits(amount) && fault != Some(0);
      hide Refused, Accrued, Fits;
      assert forall i | 0 <= i < k - 1 :: !Refused(table, balance, date, rate, rest, Later(fault), i);
      StopsAtFirst(table, balance, date, rate, rest, Later(fault), k - 1);
    } else {
      assert order[..0] == [];
    }
  }

  /** An accrual that does not complete keeps exactly the records of the accounts before the
      first whose insert is refused. */
  lemma {:induction false} StoppedAdds(accruals: Table, balance: AccountId -> int, date: int, rate: nat,
                                       order: seq<AccountId>, fault: Option<nat>, k: nat, x: Slot)
    requires NoRepeats(order) && k < |order| && FirstRefused(accruals, balance, date, rate, order, fault, k)
    ensures x in AccrueAll(accruals, balance, date, rate, order, fault).accruals && x !in accruals
       <==> x.date == date && x.account in order[..k] && Due(balance, rate, x.account)
  {
    StopsAtFirst(accruals, balance, date, rate, order, fault, k);
    CompletedAdds(accruals, balance, date, rate, order[..k], None, x);
  }

  // ---------- Serial runs ----------

  predicate AllOneDay(table: Table) { forall x <- table :: OneDayOf365(table[x]) }

  /** An accrual makes records only for active savings accounts, on their balance in the
      ledger; nothing else makes any. */
  lemma {:induction false} NextRecords(s: State, op: Bank.Op, x: Slot)
    requires Enabled(s, op) && x in Next(s, op).accruals && x !in s.accruals
    ensures op.Accrue? && op.rate.Some? && x.date == op.date && x.account in s.accounts
    ensures s.accounts[x.account].kind == Savings && s.accounts[x.account].standing == Active
    ensures var record := Next(s, op).accruals[x];
            && record.principal == Balance(s.tables.entries, x.account) && record.rate == op.rate.value
            && !record.posted && OneDayOf365(record)
  {
    match op
    case Create(_, _) =>
    case Freeze(_) =>
    case Close(_) =>
    case Request(_, _) => hide Apply;
    case Accrue(date, rate, order, fault) =>
      if rate.Some? { AccrueAllRecords(s.accruals, a => Balance(s.tables.entries, a), date, rate.value, order, fault); }
      hide AccrueAll, OneDayOf365;
    case PostThrough(through, _) => hide Selection, Apply, Postings;
  }

  lemma {:induction false} NextKeepsRecords(s: State, op: Bank.Op)
    requires Enabled(s, op) && AllOneDay(s.accruals)
    ensures AllOneDay(Next(s, op).accruals)
  {
    forall x | x in Next(s, op).accruals ensures OneDayOf365(Next(s, op).accruals[x]) {
      if x !in s.accruals { NextRecords(s, op, x); } else { RecordStays(s, op, x); }
    }
    hide OneDayOf365, Next, Enabled;
  }

  /** A record never changes but for being marked as posted. */
  lemma {:induction false} RecordStays(s: State, op: Bank.Op, x: Slot)
    requires Enabled(s, op) && x in s.accruals
    ensures x in Next(s, op).accruals && Next(s, op).accruals[x].(posted := s.accruals[x].posted) == s.accruals[x]
  {
    match op
    case Create(_, _) =>
    case Freeze(_) =>
    case Close(_) =>
    case Request(_, _) => hide Apply;
    case Accrue(date, rate, order, fault) =>
      if rate.Some? { AccrueAllKeeps(s.accruals, a => Balance(s.tables.entries, a), date, rate.value, order, fault); }
      hide AccrueAll;
    case PostThrough(through, _) => hide Selection, Apply, Postings;
  }

  lemma {:induction false} RunKeepsRecords(s: State, ops: seq<Bank.Op>)
    requires IsRun(s, ops) && AllOneDay(s.accruals)
    ensures AllOneDay(Run(s, ops).accruals)
    decreases |ops|
  {
    hide Next, Enabled, AllOneDay;
    if ops != [] {
      NextKeepsRecords(s, ops[0]);
      RunKeepsRecords(Next(s, ops[0]), ops[1..]);
    }
  }

  /** After any serial run every accrual on record, posted or not, is one day's interest on its
      principal in a year of 365 days. */
  lemma {:induction false} EveryAccrualIsOneDay(ops: seq<Bank.Op>, x: Slot)
    requires IsRun(EMPTY_BANK, ops) && x in Run(EMPTY_BANK, ops).accruals
    ensures OneDayOf365(Run(EMPTY_BANK, ops).accruals[x])
  {
    hide OneDayOf365;
    RunKeepsRecords(EMPTY_BANK, ops);
  }
}
