/** The whole bank run serially: accounts, requests, interest accrual and posting. */
module Bank {
  import opened Common
  import opened Decimals
  import opened Ledger
  import opened Accruals
  import InterestArithmetic
  import LedgerLaws
  import EngineInvariants

  datatype Kind = Checking | Savings | Loan

  datatype Account = Account(kind: Kind, standing: Standing)

  datatype State = State(accounts: map<AccountId, Account>, tables: Tables, accruals: Table)

  const EMPTY_BANK := State(map[], EMPTY, map[])

  /** The side literal of the statement that writes both legs of an interest posting. */
  const EXPENSE_SIDE := Credit

  // ---------- Closing ----------

  /** SUM(amount) over an account's entries, debits and credits alike. */
  function GrossTotal(es: seq<Entry>, a: AccountId): int {
    if es == [] then 0
    else GrossTotal(es[..|es| - 1], a) + (if es[|es| - 1].account == a then es[|es| - 1].amount else 0)
  }

  // ---------- Accrual ----------

  /** The accounts the accrual query returns: active savings with a positive balance. */
  predicate Accruing(s: State, a: AccountId) {
    a in s.accounts && s.accounts[a] == Account(Savings, Active) && Balance(s.tables.entries, a) > 0
  }

  datatype AccrueResult = AccrueResult(accruals: Table, completed: bool)

  /** Accrue for the accounts `order`, one insert each, stopping at the first that fails: on
      an accrual already recorded for the date, on an amount the column cannot hold, or at
      position `fault`.  What was inserted before stays. */
  function AccrueAll(accruals: Table, balance: AccountId -> int, date: int, rate: nat, order: seq<AccountId>,
                     fault: Option<nat>): AccrueResult
    decreases |order|
  {
    if order == [] then AccrueResult(accruals, true)
    else
      var a, principal := order[0], balance(order[0]);
      var amount := if principal <= 0 then 0 else InterestArithmetic.Accrued(principal, rate, InterestArithmetic.Actual365);
      var later := if fault == None || fault.value == 0 then None else Some(fault.value - 1);
      if amount == 0 then AccrueAll(accruals, balance, date, rate, order[1..], later)
      else if Slot(date, a) in accruals || !Fits(amount) || fault == Some(0) then AccrueResult(accruals, false)
      else AccrueAll(accruals[Slot(date, a) := Accrual(principal, rate, amount, false)], balance, date, rate,
                     order[1..], later)
  }

  // ---------- Operations ----------

  datatype Op =
    | Create(account: AccountId, kind: Kind)
    | Freeze(account: AccountId)
    | Close(account: AccountId)
    | Request(id: Id, req: Ledger.Request)
    | Accrue(date: int, rate: Option<nat>, order: seq<AccountId>, fault: Option<nat>)
    | PostThrough(through: int, names: Names)

  /** A new account has a fresh id, and the accrual query returns each accruing account. */
  predicate Enabled(s: State, op: Op) {
    match op
    case Create(a, _) => a !in s.accounts && !IsInternal(a) && forall e <- s.tables.entries :: e.account != a
    case Accrue(_, _, order, _) => forall a <- order :: Accruing(s, a)
    case _ => true
  }

  ghost function Posted(s: State, through: int, names: Names): State {
    var slots := Selection(s.accruals, through);
    match Apply(s.tables, Post(Postings(s.accruals, slots, names), EXPENSE_SIDE))
    case None => s
    case Some(after) => s.(tables := after, accruals := MarkPosted(s.accruals, slots))
  }

  function Served(s: State, id: Id, req: Ledger.Request): State {
    if forall a <- req.Accounts() :: a in s.accounts && s.accounts[a].standing == Active then
      match Apply(s.tables, Serve(id, req, 0, 0))
      case None => s
      case Some(after) => s.(tables := after)
    else s
  }

  ghost function Next(s: State, op: Op): State
    requires Enabled(s, op)
  {
    match op
    case Create(a, kind) => s.(accounts := s.accounts[a := Account(kind, Active)])
    case Freeze(a) =>
      if a in s.accounts && s.accounts[a].standing == Active
      then s.(accounts := s.accounts[a := s.accounts[a].(standing := Frozen)]) else s
    case Close(a) =>
      if a in s.accounts && GrossTotal(s.tables.entries, a) == 0
      then s.(accounts := s.accounts[a := s.accounts[a].(standing := Closed)]) else s
    case Request(id, req) => Served(s, id, req)
    case Accrue(date, rate, order, fault) =>
      if rate.None? then s
      else s.(accruals := AccrueAll(s.accruals, a => Balance(s.tables.entries, a), date, rate.value, order, fault).accruals)
    case PostThrough(through, names) => Posted(s, through, names)
  }

  ghost predicate IsRun(s: State, ops: seq<Op>)
    decreases |ops|
  {
    ops == [] || (Enabled(s, ops[0]) && IsRun(Next(s, ops[0]), ops[1..]))
  }

  ghost function Run(s: State, ops: seq<Op>): State
    requires IsRun(s, ops)
    decreases |ops|
  {
    if ops == [] then s else Run(Next(s, ops[0]), ops[1..])
  }

  // ---------- What every serial run keeps ----------

  predicate HasEntry(es: seq<Entry>, a: AccountId) { exists e <- es :: e.account == a }

  /** Entries are positive and on known accounts; an accrual belongs to an account that has
      entries; a closed account has none. */
  predicate Sound(s: State) {
    && (forall a <- s.accounts :: !IsInternal(a))
    && (forall e <- s.tables.entries :: e.amount > 0 && (IsInternal(e.account) || e.account in s.accounts))
    && (forall x <- s.accruals :: HasEntry(s.tables.entries, x.account) && s.accruals[x].amount > 0
                                  && x.account in s.accounts)
    && (forall a <- s.accounts :: s.accounts[a].standing == Closed ==> !HasEntry(s.tables.entries, a))
  }

  lemma {:induction false} GrossTotalZero(es: seq<Entry>, a: AccountId)
    requires forall e <- es :: e.amount > 0
    ensures GrossTotal(es, a) >= 0
    ensures GrossTotal(es, a) == 0 <==> !HasEntry(es, a)
  {
    if es != [] {
      var init, last := es[..|es| - 1], es[|es| - 1];
      GrossTotalZero(init, a);
      assert forall e :: e in es <==> e in init || e == last;
      assert last in es;
    }
  }

  /** Closing succeeds exactly for a known account that never had an entry: a balance that
      came back to zero is not enough. */
  lemma {:induction false} CloseIff(s: State, a: AccountId)
    requires Sound(s)
    ensures Next(s, Close(a)) == s.(accounts := Next(s, Close(a)).accounts)
    ensures a in s.accounts && s.accounts[a].standing != Closed ==>
              (Next(s, Close(a)).accounts[a].standing == Closed <==> !HasEntry(s.tables.entries, a))
  {
    GrossTotalZero(s.tables.entries, a);
  }

  /** An account is created active and of its kind; freezing makes exactly an active account
      frozen; closing makes an account closed exactly when its entries, unsigned, sum to zero. */
  lemma {:induction false} StandingIff(s: State, a: AccountId, kind: Kind)
    ensures Enabled(s, Create(a, kind)) ==> Next(s, Create(a, kind)) == s.(accounts := s.accounts[a := Account(kind, Active)])
    ensures var t := Next(s, Freeze(a));
            if a in s.accounts && s.accounts[a].standing == Active
            then t == s.(accounts := s.accounts[a := Account(s.accounts[a].kind, Frozen)]) else t == s
    ensures var t := Next(s, Close(a));
            if a in s.accounts && GrossTotal(s.tables.entries, a) == 0
            then t == s.(accounts := s.accounts[a := Account(s.accounts[a].kind, Closed)]) else t == s
  {
  }

  // ---------- A zero balance is not enough to close ----------

  const DEPOSIT := DepositRequest("a", Amount(10.0), "UGX", "d")
  const WITHDRAWAL := WithdrawalRequest("a", Amount(10.0), "UGX", "w")
  const OPENED := State(map["a" := Account(Checking, Active)], EMPTY, map[])

  lemma {:induction false} ExampleRequests()
    ensures Acceptable(DEPOSIT) && Acceptable(WITHDRAWAL) && Round(10.0) == 10 && Round(0.0) == 0
  {
  }

  /** A request on the open account whose rows can be stored is served. */
  lemma {:induction false} ServedExample(s: State, id: Id, req: Ledger.Request, rows: Tables)
    requires s.accounts == OPENED.accounts && Acceptable(req) && req.Accounts() == ["a"]
    requires !KeyUsed(s.tables, req.key) && !IdUsed(s.tables, id)
    requires Covered(req, Balance(s.tables.entries, req.Debited()))
    requires rows == ServedRows(id, req, Balance(s.tables.entries, req.Debited()), Balance(s.tables.entries, req.Credited()))
    requires Storable(rows.entries[0]) && Storable(rows.entries[1])
    ensures Served(s, id, req) == s.(tables := Append(s.tables, rows))
  {
    hide Acceptable, Covered, KeyUsed, IdUsed, Balance, Storable, DebitLeg, CreditLeg;
    assert req.Accounts()[0] == "a";
  }

  /** The deposit of 10 is served. */
  lemma {:induction false} Deposited() returns (s: State)
    ensures s == Next(OPENED, Request(0, DEPOSIT)) && s.accounts == OPENED.accounts
    ensures s.tables == ServedRows(0, DEPOSIT, 0, 0) && Balance(s.tables.entries, "a") == 10
  {
    ExampleRequests();
    hide Validate, Served;
    s := Next(OPENED, Request(0, DEPOSIT));
    var rows := ServedRows(0, DEPOSIT, 0, 0);
    ServedExample(OPENED, 0, DEPOSIT, rows);
    assert Append(EMPTY, rows) == rows;
    LedgerLaws.PairBalance(rows.entries[0], rows.entries[1], "a");
  }

  /** The withdrawal of 10 is served after it. */
  lemma {:induction false} Withdrawn() returns (s: State)
    ensures s == Next(Next(OPENED, Request(0, DEPOSIT)), Request(1, WITHDRAWAL)) && s.accounts == OPENED.accounts
    ensures Balance(s.tables.entries, "a") == 0 && GrossTotal(s.tables.entries, "a") == 20
  {
    ExampleRequests();
    hide Validate, Balance, Served, GrossTotal;
    var first := Deposited();
    s := Next(first, Request(1, WITHDRAWAL));
    var rows := ServedRows(1, WITHDRAWAL, 10, Balance(first.tables.entries, GL_CASH));
    ServedExample(first, 1, WITHDRAWAL, rows);
    BalanceAppend(first.tables.entries, rows.entries, "a");
    LedgerLaws.PairBalance(rows.entries[0], rows.entries[1], "a");
    GrossOfTwoPairs(first.tables.entries[0], first.tables.entries[1], rows.entries[0], rows.entries[1]);
    assert s.tables.entries
        == [first.tables.entries[0], first.tables.entries[1], rows.entries[0], rows.entries[1]];
  }

  lemma {:induction false} GrossOfTwoPairs(x: Entry, y: Entry, z: Entry, w: Entry)
    requires x.account == w.account == GL_CASH && y.account == z.account == "a"
    ensures GrossTotal([x, y, z, w], "a") == y.amount + z.amount
  {
    assert [x, y, z, w][..3] == [x, y, z] && [x, y, z][..2] == [x, y] && [x, y][..1] == [x] && [x][..0] == [];
    assert GrossTotal([x], "a") == 0 && GrossTotal([x, y], "a") == y.amount;
    assert GrossTotal([x, y, z], "a") == y.amount + z.amount;
  }

  /** Create an account, deposit 10, withdraw 10: its balance is zero, and closing it is
      refused and changes nothing. */
  lemma {:induction false} ZeroBalanceIsNotEnough()
    ensures var ops := [Create("a", Checking), Request(0, DEPOSIT), Request(1, WITHDRAWAL)];
            && IsRun(EMPTY_BANK, ops)
            && var s := Run(EMPTY_BANK, ops);
               && "a" in s.accounts && s.accounts["a"].standing == Active
               && Balance(s.tables.entries, "a") == 0 && Next(s, Close("a")) == s
  {
    var ops := [Create("a", Checking), Request(0, DEPOSIT), Request(1, WITHDRAWAL)];
    var s := Withdrawn();
    var first := Next(OPENED, Request(0, DEPOSIT));
    assert Next(EMPTY_BANK, ops[0]) == OPENED;
    hide Served, GrossTotal;
    assert ops[1..][1..][1..] == [] && ops[1..][0] == ops[1] && ops[1..][1..][0] == ops[2];
    assert IsRun(s, []) && Run(s, []) == s;
    assert IsRun(first, ops[1..][1..]) && Run(first, ops[1..][1..]) == s;
    assert IsRun(OPENED, ops[1..]) && Run(OPENED, ops[1..]) == s;
    assert IsRun(EMPTY_BANK, ops) && Run(EMPTY_BANK, ops) == s;
  }

  lemma {:induction false} AccrueAllKeeps(accruals: Table, balance: AccountId -> int, date: int, rate: nat,
                                          order: seq<AccountId>, fault: Option<nat>)
    ensures var after := AccrueAll(accruals, balance, date, rate, order, fault).accruals;
            && accruals.Keys <= after.Keys
            && (forall x <- accruals :: after[x] == accruals[x])
            && (forall x <- after :: x !in accruals ==>
                  x.date == date && x.account in order && !after[x].posted && after[x].amount > 0)
    decreases |order|
  {
    if order != [] {
      var a, principal := order[0], balance(order[0]);
      var amount := if principal <= 0 then 0 else InterestArithmetic.Accrued(principal, rate, InterestArithmetic.Actual365);
      var later := if fault == None || fault.value == 0 then None else Some(fault.value - 1);
      AccrueAllKeeps(accruals, balance, date, rate, order[1..], later);
      AccrueAllKeeps(accruals[Slot(date, a) := Accrual(principal, rate, amount, false)], balance, date, rate,
                     order[1..], later);
      hide InterestArithmetic.Accrued;
    }
  }

  lemma {:induction false} BalanceNeedsEntry(es: seq<Entry>, a: AccountId)
    requires Balance(es, a) != 0
    ensures HasEntry(es, a)
  {
    if !HasEntry(es, a) { BalanceUntouched(es, a); }
  }

  lemma {:induction false} AccrueKeepsSound(s: State, op: Op)
    requires Sound(s) && op.Accrue? && Enabled(s, op)
    ensures Sound(Next(s, op))
  {
    if op.rate.Some? {
      var balance := a => Balance(s.tables.entries, a);
      AccrueAllKeeps(s.accruals, balance, op.date, op.rate.value, op.order, op.fault);
      forall a | a in op.order ensures HasEntry(s.tables.entries, a) {
        BalanceNeedsEntry(s.tables.entries, a);
      }
      hide HasEntry, AccrueAll;
    }
  }

  /** What a request writes is on the accounts it names, which are active. */
  lemma {:induction false} ServedKeepsSound(s: State, id: Id, req: Ledger.Request)
    requires Sound(s)
    ensures Sound(Served(s, id, req))
  {
    var after := Served(s, id, req);
    if after != s {
      var more := after.tables.entries[|s.tables.entries|..];
      assert after.tables.entries == s.tables.entries + more && |more| == 2;
      assert more[0] == after.tables.entries[|s.tables.entries|];
      ServedAccounts(s, id, req);
      GrownEntriesKeepSound(s, after, more);
    }
  }

  lemma {:induction false} ServedAccounts(s: State, id: Id, req: Ledger.Request)
    requires Served(s, id, req) != s
    ensures var n, es := |s.tables.entries|, Served(s, id, req).tables.entries;
            && |es| == n + 2 && es[..n] == s.tables.entries
            && forall i | n <= i < n + 2 ::
                 es[i].amount > 0 && es[i].kind != Interest &&
                 (es[i].account == GL_CASH || (es[i].account in s.accounts && s.accounts[es[i].account].standing == Active))
  {
    hide Balance, Covered, KeyUsed, IdUsed, Validate;
    var n, es := |s.tables.entries|, Served(s, id, req).tables.entries;
    assert es[n].account == req.Debited() && es[n + 1].account == req.Credited();
    assert Storable(es[n]) && Storable(es[n + 1]);
    assert forall a <- req.Accounts() :: a in s.accounts && s.accounts[a].standing == Active;
    match req
    case DepositRequest(a, _, _, _) => assert req.Accounts()[0] == a;
    case WithdrawalRequest(a, _, _, _) => assert req.Accounts()[0] == a;
    case TransferRequest(a, b, _, _, _) => assert req.Accounts()[0] == a && req.Accounts()[1] == b;
  }

  /** Adding positive entries on internal, or known and not closed, accounts is sound. */
  lemma {:induction false} GrownEntriesKeepSound(s: State, after: State, more: seq<Entry>)
    requires Sound(s) && after.accounts == s.accounts && after.tables.entries == s.tables.entries + more
    requires after.accruals.Keys == s.accruals.Keys
    requires forall x <- s.accruals :: after.accruals[x].amount == s.accruals[x].amount
    requires forall e <- more :: OpenLeg(s, e)
    ensures Sound(after)
  {
    var es := after.tables.entries;
    forall x | x in after.accruals ensures HasEntry(es, x.account) {
      var e :| e in s.tables.entries && e.account == x.account;
      assert e in es;
    }
    forall a | a in after.accounts && after.accounts[a].standing == Closed ensures !HasEntry(es, a) {
      forall e | e in es ensures e.account != a {
        assert e in s.tables.entries || e in more;
      }
    }
  }

  lemma {:induction false} PostingAccounts(table: Table, slots: seq<Slot>, names: Names)
    requires forall x <- slots :: x in table
    ensures |Postings(table, slots, names)| == |slots|
    ensures forall i | 0 <= i < |slots| :: Postings(table, slots, names)[i] == PostingOf(table, slots[i], names)
  {
    if slots != [] { PostingAccounts(table, slots[..|slots| - 1], names); }
  }

  predicate OpenLeg(s: State, e: Entry) {
    e.amount > 0 && (IsInternal(e.account) || (e.account in s.accounts && s.accounts[e.account].standing != Closed))
  }

  /** Only accounts with entries have accruals, and those are not closed. */
  lemma {:induction false} AccrualAccountsOpen(s: State, x: Slot)
    requires Sound(s) && x in s.accruals
    ensures x.account in s.accounts && s.accounts[x.account].standing != Closed && s.accruals[x].amount > 0
  {
  }

  lemma {:induction false} OnePostingOpen(s: State, slots: seq<Slot>, names: Names, p: Posting)
    requires Sound(s) && (forall x <- slots :: x in s.accruals) && p in Postings(s.accruals, slots, names)
    ensures forall e <- PostingLegs(p, EXPENSE_SIDE) :: OpenLeg(s, e)
  {
    hide Sound;
    PostingAccounts(s.accruals, slots, names);
    hide Postings;
    var ps := Postings(s.accruals, slots, names);
    var i :| 0 <= i < |ps| && ps[i] == p;
    assert slots[i] in slots;
    AccrualAccountsOpen(s, slots[i]);
  }

  lemma {:induction false} PostingLegsOpen(s: State, slots: seq<Slot>, names: Names)
    requires Sound(s) && forall x <- slots :: x in s.accruals
    ensures forall e <- PostingRows(Postings(s.accruals, slots, names), EXPENSE_SIDE).entries :: OpenLeg(s, e)
  {
    hide Sound, Postings, PostingRows, PostingLegs, OpenLeg;
    var ps := Postings(s.accruals, slots, names);
    EngineInvariants.PostingLegsOnly(ps, EXPENSE_SIDE);
    forall e | e in PostingRows(ps, EXPENSE_SIDE).entries ensures OpenLeg(s, e) {
      var p :| p in ps && e in PostingLegs(p, EXPENSE_SIDE);
      OnePostingOpen(s, slots, names, p);
    }
  }

  lemma {:induction false} PostedKeepsSound(s: State, through: int, names: Names)
    requires Sound(s)
    ensures Sound(Posted(s, through, names))
  {
    hide Sound, PostingRows, Sorted, Postings, FreshPostings;
    var slots, after := Selection(s.accruals, through), Posted(s, through, names);
    var ps := Postings(s.accruals, slots, names);
    if Apply(s.tables, Post(ps, EXPENSE_SIDE)).Some? {
      PostingLegsOpen(s, slots, names);
      GrownEntriesKeepSound(s, after, PostingRows(ps, EXPENSE_SIDE).entries);
    }
  }

  lemma {:induction false} NextKeepsSound(s: State, op: Op)
    requires Sound(s) && Enabled(s, op)
    ensures Sound(Next(s, op))
  {
    match op
    case Create(a, _) =>
    case Freeze(_) =>
    case Close(a) => GrossTotalZero(s.tables.entries, a);
    case Request(id, req) => ServedKeepsSound(s, id, req);
    case Accrue(_, _, _, _) => AccrueKeepsSound(s, op);
    case PostThrough(through, names) => PostedKeepsSound(s, through, names);
  }

  predicate ClosedNow(s: State, a: AccountId) { a in s.accounts && s.accounts[a].standing == Closed }

  lemma {:induction false} NextKeepsClosed(s: State, op: Op, a: AccountId)
    requires Sound(s) && Enabled(s, op) && ClosedNow(s, a)
    ensures ClosedNow(Next(s, op), a)
  {
    hide Sound, AccrueAll, Apply;
  }

  lemma {:induction false} ClosedForGood(s: State, ops: seq<Op>, a: AccountId)
    requires Sound(s) && IsRun(s, ops)
    ensures Sound(Run(s, ops))
    ensures ClosedNow(s, a) ==> ClosedNow(Run(s, ops), a)
    decreases |ops|
  {
    if ops != [] {
      NextKeepsSound(s, ops[0]);
      if ClosedNow(s, a) { NextKeepsClosed(s, ops[0], a); }
      hide Sound, Next, ClosedNow, Enabled;
      ClosedForGood(Next(s, ops[0]), ops[1..], a);
    }
  }

  /** Closed stays empty of money: once an account is closed, in every serial continuation it
      is still closed, has no entry at all, and its balance is zero. */
  lemma {:induction false} ClosedStaysEmpty(before: seq<Op>, after: seq<Op>, a: AccountId)
    requires IsRun(EMPTY_BANK, before) && ClosedNow(Run(EMPTY_BANK, before), a)
    requires IsRun(Run(EMPTY_BANK, before), after)
    ensures var s := Run(Run(EMPTY_BANK, before), after);
            ClosedNow(s, a) && !HasEntry(s.tables.entries, a) && Balance(s.tables.entries, a) == 0
  {
    ClosedForGood(EMPTY_BANK, before, a);
    ClosedForGood(Run(EMPTY_BANK, before), after, a);
    BalanceUntouched(Run(Run(EMPTY_BANK, before), after).tables.entries, a);
  }
}
