/** The interest service statement by statement: the daily accrual loop, which is not in a
    database transaction, and the posting loop, which is. */
module InterestService {
  import opened Common
  import opened Decimals
  import opened Ledger
  import opened Accruals
  import opened InterestArithmetic
  import Bank
  import EngineInvariants
  import InterestLedger

  /** A row of the rate table; `to` is None while the rate is open-ended. */
  datatype RateRow = RateRow(product: string, rate: nat, from: int, to: Option<int>)

  /** The product type of every account that accrues. */
  const SAVINGS := "SAVINGS"

  predicate Effective(r: RateRow, product: string, date: int) {
    r.product == product && r.from <= date && (r.to == None || date <= r.to.value)
  }

  /** The rate of the product's effective row that started last, or None if no row is effective. */
  predicate IsCurrent(rates: seq<RateRow>, product: string, date: int, rate: Option<nat>) {
    match rate
    case None => forall r <- rates :: !Effective(r, product, date)
    case Some(n) => exists r <- rates :: r.rate == n && Effective(r, product, date)
                      && forall q <- rates :: Effective(q, product, date) ==> q.from <= r.from
  }

  class Service {
    var accounts: map<AccountId, Bank.Account>
    var txns: seq<Txn>
    var entries: seq<Entry>
    var outbox: seq<Event>
    var accruals: Table
    var rates: seq<RateRow>

    constructor (rates: seq<RateRow>)
      ensures State() == Bank.EMPTY_BANK && this.rates == rates
    {
      accounts, txns, entries, outbox, accruals := map[], [], [], [], map[];
      this.rates := rates;
    }

    function State(): Bank.State
      reads this
    {
      Bank.State(accounts, Tables(txns, entries, outbox), accruals)
    }

    /** The effective rate that started last, if any rate is effective. */
    method GetCurrentRate(product: string, date: int) returns (rate: Option<nat>)
      ensures IsCurrent(rates, product, date, rate)
      ensures rate.None? <==> forall r <- rates ::
                r.product != product || date < r.from || (r.to.Some? && r.to.value < date)
      ensures rate.Some? ==> exists r <- rates ::
                && r.rate == rate.value && r.product == product && r.from <= date
                && (r.to.Some? ==> date <= r.to.value)
                && forall q <- rates :: q.product != product || q.from <= r.from || date < q.from
                                        || (q.to.Some? && q.to.value < date)
    {
      var best: Option<RateRow> := None;
      var i := 0;
      while i < |rates|
        invariant 0 <= i <= |rates|
        invariant best.None? ==> forall j | 0 <= j < i :: !Effective(rates[j], product, date)
        invariant best.Some? ==> best.value in rates && Effective(best.value, product, date)
        invariant best.Some? ==> forall j | 0 <= j < i && Effective(rates[j], product, date) :: rates[j].from <= best.value.from
      {
        if Effective(rates[i], product, date) && (best.None? || best.value.from < rates[i].from) { best := Some(rates[i]); }
        i := i + 1;
      }
      rate := if best.None? then None else Some(best.value.rate);
    }

    method BalanceOf(a: AccountId) returns (balance: int)
      ensures balance == Balance(entries, a)
    {
      balance := 0;
      var i := 0;
      while i < |entries|
        invariant 0 <= i <= |entries|
        invariant balance == Balance(entries[..i], a)
      {
        assert entries[..i + 1][..i] == entries[..i];
        balance := balance + Signed(entries[i], a);
        i := i + 1;
      }
      assert entries[..i] == entries;
    }

    /** The accruing accounts, each once, in whatever order the query returns them. */
    method GetActiveSavings() returns (order: seq<AccountId>)
      ensures forall a :: a in order <==> Bank.Accruing(State(), a)
      ensures forall i, j | 0 <= i < j < |order| :: order[i] != order[j]
    {
      order := [];
      var remaining := accounts.Keys;
      while remaining != {}
        invariant remaining <= accounts.Keys
        invariant forall a | a in order :: a !in remaining && Bank.Accruing(State(), a)
        invariant forall a | a in accounts && a !in remaining && Bank.Accruing(State(), a) :: a in order
        invariant forall i, j | 0 <= i < j < |order| :: order[i] != order[j]
        decreases remaining
      {
        var a :| a in remaining;
        var balance := BalanceOf(a);
        if accounts[a] == Bank.Account(Bank.Savings, Active) && balance > 0 { order := order + [a]; }
        remaining := remaining - {a};
      }
    }

    /** Accrue for one day.  An insert that fails ends the run and keeps the earlier ones. */
    method AccrueDaily(date: int, fault: Option<nat>)
      returns (ok: bool, ghost rate: Option<nat>, ghost order: seq<AccountId>)
      modifies this`accruals
      ensures var op := Bank.Accrue(date, rate, order, fault);
              Bank.Enabled(old(State()), op) && State() == Bank.Next(old(State()), op)
      ensures IsCurrent(rates, "SAVINGS", date, rate)
      ensures forall a :: a in order <==> Bank.Accruing(old(State()), a)
      ensures forall i, j | 0 <= i < j < |order| :: order[i] != order[j]
      ensures rate.None? ==> ok
      ensures rate.Some? ==>
        ok == Bank.AccrueAll(old(accruals), a => Balance(old(entries), a), date, rate.value, order, fault).completed
    {
      var names := GetActiveSavings();
      var current := GetCurrentRate(SAVINGS, date);
      order, rate := names, current;
      if current.None? { return true, rate, order; }
      ghost var balance := a => Balance(old(entries), a);
      ghost var whole := Bank.AccrueAll(accruals, balance, date, current.value, names, fault);
      var left := fault;
      var i := 0;
      while i < |names|
        invariant 0 <= i <= |names|
        invariant Bank.AccrueAll(accruals, balance, date, current.value, names[i..], left) == whole
      {
        var a := names[i];
        assert names[i..][0] == a && names[i..][1..] == names[i + 1..];
        var principal := BalanceOf(a);
        var amount := if principal <= 0 then 0 else Accrued(principal, current.value, Actual365);
        if amount != 0 {
          if Slot(date, a) in accruals || !Fits(amount) || left == Some(0) { return false, rate, order; }
          accruals := accruals[Slot(date, a) := Accrual(principal, current.value, amount, false)];
        }
        left := if left == None || left.value == 0 then None else Some(left.value - 1);
        i := i + 1;
      }
      assert names[i..] == [];
      ok := true;
    }

    /** SELECT the unposted accruals through a date, ORDER BY date and account. */
    method GetUnpostedAccruals(through: int) returns (slots: seq<Slot>)
      ensures slots == Selection(accruals, through)
    {
      slots := [];
      assert Sorted({}) == [];
      hide Sorted, Before, IsFirst;
      var remaining := Unposted(accruals, through);
      while remaining != {}
        invariant remaining <= Unposted(accruals, through)
        invariant slots + Sorted(remaining) == Selection(accruals, through)
        decreases remaining
      {
        var first := FirstOf(remaining);
        TakeFirst(slots, remaining, first);
        slots := slots + [first];
        remaining := remaining - {first};
      }
    }

    static method FirstOf(slots: set<Slot>) returns (first: Slot)
      requires slots != {}
      ensures IsFirst(slots, first)
    {
      first :| first in slots;
      var rest := slots - {first};
      while rest != {}
        invariant rest <= slots && first in slots && first !in rest
        invariant forall y | y in slots && y !in rest && y != first :: Before(first, y)
        decreases rest
      {
        var y :| y in rest;
        BeforeTotal(first, y);
        if Before(y, first) {
          forall z | z in slots && z !in rest - {y} && z != y ensures Before(y, z) {
            if z != first { BeforeTransitive(y, first, z); }
          }
          first := y;
        }
        rest := rest - {y};
      }
    }

    /** Insert the header and the two legs of one posting; false when the database refuses. */
    method InsertPosting(p: Posting) returns (ok: bool)
      modifies this`txns, this`entries
      ensures ok == FreshPostings(old(State()).tables, [p])
      ensures State().tables
           == if ok then Append(old(State()).tables, PostingRows([p], Bank.EXPENSE_SIDE)) else old(State()).tables
    {
      OnePosting(p);
      ok := FindKey(txns, p.key).None? && FindId(txns, p.id).None? && p.amount > 0 && !IsInternal(p.account);
      assert ok ==> forall q <- [p] :: q == p;
      assert !ok ==> p in [p];
      if ok {
        txns := txns + [Txn(p.id, p.key, Interest, Settled)];
        entries := entries + [Entry(p.id, Interest, p.account, Credit, p.amount, 0, INTEREST_CURRENCY)];
        entries := entries + [Entry(p.id, Interest, GL_INTEREST_EXPENSE, Credit, p.amount, 0, INTEREST_CURRENCY)];
      }
    }

    /** Insert the rows of one posting and mark its accrual as posted. */
    method PostOne(x: Slot, p: Posting, fails: bool) returns (ok: bool)
      requires x in accruals
      modifies this`txns, this`entries, this`accruals
      ensures ok == (!fails && FreshPostings(old(State()).tables, [p]))
      ensures ok ==> State() == Bank.State(old(accounts),
                                           Append(old(State()).tables, PostingRows([p], Bank.EXPENSE_SIDE)),
                                           old(accruals)[x := old(accruals)[x].(posted := true)])
      ensures outbox == old(outbox)
    {
      hide FreshPostings, PostingRows;
      ok := InsertPosting(p);
      ok := ok && !fails;
      if ok { accruals := accruals[x := accruals[x].(posted := true)]; }
    }

    /** The loop of the posting transaction; after a failure the tables are left half written. */
    method PostAll(slots: seq<Slot>, names: Names, fault: Option<nat>) returns (ok: bool)
      requires forall x <- slots :: x in accruals
      modifies this`txns, this`entries, this`accruals
      ensures accounts == old(accounts) && outbox == old(outbox)
      ensures ok ==> SoFar(old(State()), State(), slots, Postings(old(accruals), slots, names), |slots|)
      ensures !ok && fault == None ==> !FreshPostings(old(State()).tables, Postings(old(accruals), slots, names))
    {
      var table := accruals;
      ghost var before, ps := State(), Postings(accruals, slots, names);
      Bank.PostingAccounts(accruals, slots, names);
      NothingPosted(before, slots, ps);
      hide FreshPostings, PostingRows, SoFar, Postings;
      ok := true;
      var i := 0;
      while i < |slots| && ok
        invariant 0 <= i <= |slots| && outbox == before.tables.outbox
        invariant ok ==> SoFar(before, State(), slots, ps, i)
        invariant !ok && fault == None ==> !FreshPostings(before.tables, ps)
      {
        SoFarKeepsSlots(before, State(), slots, ps, i);
        OneMorePosted(before, State(), slots, ps, i);
        ok := PostOne(slots[i], PostingOf(table, slots[i], names), fault == Some(i));
        i := i + 1;
      }
    }

    /** Post every unposted accrual through a date in one database transaction; `fault` is the
        position at which a statement fails. */
    method PostAccruedInterest(through: int, names: Names, fault: Option<nat>) returns (ok: bool)
      modifies this`txns, this`entries, this`accruals
      ensures ok ==> State() == Bank.Posted(old(State()), through, names)
      ensures !ok ==> State() == old(State())
      ensures fault == None ==>
        (ok <==> FreshPostings(old(State()).tables, Postings(old(accruals), Selection(old(accruals), through), names)))
    {
      InterestLedger.SelectionFacts(accruals, through);
      hide FreshPostings, SoFar, Selection, Postings, Bank.Posted;
      var slots := GetUnpostedAccruals(through);
      var savedTxns, savedEntries, savedAccruals := txns, entries, accruals;
      ok := PostAll(slots, names, fault);
      if ok {
        AllPosted(old(State()), State(), through, names);
      } else {
        txns, entries, accruals := savedTxns, savedEntries, savedAccruals;
      }
    }
  }

  lemma {:induction false} TakeFirst(done: seq<Slot>, remaining: set<Slot>, first: Slot)
    requires IsFirst(remaining, first)
    ensures done + Sorted(remaining) == (done + [first]) + Sorted(remaining - {first})
  {
    hide IsFirst, Sorted;
    SortedFirst(remaining, first);
  }

  // ---------- The posting loop ----------

  /** `now` is `before` with the first `i` slots posted, their names being fresh. */
  predicate SoFar(before: Bank.State, now: Bank.State, slots: seq<Slot>, ps: seq<Posting>, i: nat) {
    && i <= |ps| && i <= |slots|
    && FreshPostings(before.tables, ps[..i])
    && now.accounts == before.accounts
    && now.tables == Append(before.tables, PostingRows(ps[..i], Bank.EXPENSE_SIDE))
    && now.accruals == MarkPosted(before.accruals, slots[..i])
  }

  lemma {:induction false} NothingPosted(before: Bank.State, slots: seq<Slot>, ps: seq<Posting>)
    ensures SoFar(before, before, slots, ps, 0)
  {
    EngineInvariants.AppendEmpty(before.tables);
    assert ps[..0] == [] && slots[..0] == [];
    assert MarkPosted(before.accruals, []) == before.accruals;
  }

  lemma {:induction false} SoFarKeepsSlots(before: Bank.State, now: Bank.State, slots: seq<Slot>, ps: seq<Posting>, i: nat)
    requires SoFar(before, now, slots, ps, i)
    ensures now.accruals.Keys == before.accruals.Keys
  {
    hide FreshPostings;
  }

  /** One more slot can be posted if and only if its names are fresh. */
  lemma {:induction false} OneMorePosted(before: Bank.State, now: Bank.State, slots: seq<Slot>, ps: seq<Posting>, i: nat)
    requires SoFar(before, now, slots, ps, i) && i < |ps| == |slots| && slots[i] in now.accruals
    ensures FreshPostings(now.tables, [ps[i]]) ==>
              SoFar(before, Bank.State(now.accounts, Append(now.tables, PostingRows([ps[i]], Bank.EXPENSE_SIDE)),
                                       now.accruals[slots[i] := now.accruals[slots[i]].(posted := true)]),
                    slots, ps, i + 1)
    ensures !FreshPostings(now.tables, [ps[i]]) ==> !FreshPostings(before.tables, ps)
  {
    FreshOneMore(before.tables, ps, i);
    MarkOneMore(before.accruals, slots, i);
    hide FreshPostings, MarkPosted;
    assert ps[..i + 1] == ps[..i] + [ps[i]];
    InterestLedger.PostingRowsAppend(ps[..i], [ps[i]], Bank.EXPENSE_SIDE);
    hide PostingRows;
    InterestLedger.AppendTwice(before.tables, PostingRows(ps[..i], Bank.EXPENSE_SIDE),
                               PostingRows([ps[i]], Bank.EXPENSE_SIDE));
  }

  lemma {:induction false} AllPosted(before: Bank.State, now: Bank.State, through: int, names: Names)
    requires SoFar(before, now, Selection(before.accruals, through),
                   Postings(before.accruals, Selection(before.accruals, through), names),
                   |Selection(before.accruals, through)|)
    ensures FreshPostings(before.tables, Postings(before.accruals, Selection(before.accruals, through), names))
    ensures now == Bank.Posted(before, through, names)
  {
    InterestLedger.SelectionFacts(before.accruals, through);
    hide FreshPostings, Selection, PostingRows, MarkPosted, Bank.Posted;
    var slots := Selection(before.accruals, through);
    Bank.PostingAccounts(before.accruals, slots, names);
    var ps := Postings(before.accruals, slots, names);
    assert slots[..|slots|] == slots && ps[..|slots|] == ps;
    InterestLedger.PostedIsAppend(before, through, names);
  }

  lemma {:induction false} MarkOneMore(table: Table, slots: seq<Slot>, i: nat)
    requires i < |slots| && slots[i] in table
    ensures var marked := MarkPosted(table, slots[..i]);
            slots[i] in marked
            && MarkPosted(table, slots[..i + 1]) == marked[slots[i] := marked[slots[i]].(posted := true)]
  {
    assert slots[..i + 1] == slots[..i] + [slots[i]];
  }

  lemma {:induction false} OnePosting(p: Posting)
    ensures PostingRows([p], Bank.EXPENSE_SIDE)
         == Tables([Txn(p.id, p.key, Interest, Settled)], PostingLegs(p, Bank.EXPENSE_SIDE), [])
  {
    assert [p][..0] == [];
    assert PostingRows([], Bank.EXPENSE_SIDE) == EMPTY;
  }

  /** The postings made so far and the next one are fresh together exactly when the next one is
      fresh after them. */
  lemma {:induction false} FreshOneMore(db: Tables, ps: seq<Posting>, i: nat)
    requires i < |ps| && FreshPostings(db, ps[..i])
    ensures var after := Append(db, PostingRows(ps[..i], Bank.EXPENSE_SIDE));
            && (FreshPostings(after, [ps[i]]) <==> FreshPostings(db, ps[..i + 1]))
            && (FreshPostings(db, ps) ==> FreshPostings(db, ps[..i + 1]))
  {
    var first, p := ps[..i], ps[i];
    var after := Append(db, PostingRows(first, Bank.EXPENSE_SIDE));
    assert ps[..i + 1] == first + [p];
    if FreshPostings(db, ps) {
      assert ps == ps[..i + 1] + ps[i + 1..];
      InterestLedger.FreshSplit(db, ps[..i + 1], ps[i + 1..], Bank.EXPENSE_SIDE);
    }
    if FreshPostings(db, first + [p]) {
      InterestLedger.FreshSplit(db, first, [p], Bank.EXPENSE_SIDE);
    }
    if FreshPostings(after, [p]) {
      FreshJoin(db, first, p);
    }
  }

  lemma {:induction false} FreshJoin(db: Tables, first: seq<Posting>, p: Posting)
    requires FreshPostings(db, first)
    requires FreshPostings(Append(db, PostingRows(first, Bank.EXPENSE_SIDE)), [p])
    ensures FreshPostings(db, first + [p])
  {
    var rows := PostingRows(first, Bank.EXPENSE_SIDE);
    EngineInvariants.PostingTxns(first, Bank.EXPENSE_SIDE);
    EngineInvariants.IdUsedAppend(db, rows, p.id);
    EngineInvariants.KeyUsedAppend(db, rows, p.key);
    assert p in [p];
    forall j | 0 <= j < |first| ensures first[j].id != p.id && first[j].key != p.key {
      assert rows.txns[j] in rows.txns;
    }
  }
}
