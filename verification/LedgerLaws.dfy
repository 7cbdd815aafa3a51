/** What every history of operations keeps in the ledger: solvency, double entry, one
    transaction per key, running balances and totals per currency. */
module LedgerLaws {
  import opened Common
  import opened Decimals
  import opened Ledger
  import opened EngineInvariants

  // ---------- No overdraft ----------

  ghost predicate Solvent(db: Tables) {
    forall a :: !IsInternal(a) ==> Balance(db.entries, a) >= 0
  }

  lemma {:induction false} PostingBalance(ps: seq<Posting>, side: Side, a: AccountId)
    requires !IsInternal(a) && forall p <- ps :: p.amount > 0
    ensures Balance(PostingRows(ps, side).entries, a) >= 0
  {
    if ps != [] {
      var rest, legs := ps[..|ps| - 1], PostingLegs(ps[|ps| - 1], side);
      PostingBalance(rest, side, a);
      BalanceAppend(PostingRows(rest, side).entries, legs, a);
      PairBalance(legs[0], legs[1], a);
    }
  }

  lemma {:induction false} PairBalance(x: Entry, y: Entry, a: AccountId)
    ensures Balance([x, y], a) == Signed(x, a) + Signed(y, a)
  {
    assert [x, y][..1] == [x];
    assert Balance([x], a) == Balance([x][..0], a) + Signed(x, a);
  }

  /** What serving a request does to the balance of any account. */
  lemma {:induction false} ServedBalance(db: Tables, id: Id, req: Request, debitSeen: int, creditSeen: int, a: AccountId)
    requires req.amount.Amount?
    ensures Balance(db.entries + ServedRows(id, req, debitSeen, creditSeen).entries, a)
         == Balance(db.entries, a)
          - (if a == req.Debited() then Round(req.amount.value) else 0)
          + (if a == req.Credited() then Round(req.amount.value) else 0)
  {
    var legs := ServedRows(id, req, debitSeen, creditSeen).entries;
    BalanceAppend(db.entries, legs, a);
    PairBalance(legs[0], legs[1], a);
  }

  lemma {:induction false} ApplyKeepsSolvent(db: Tables, op: Op)
    requires Solvent(db) && Apply(db, op).Some?
    ensures Solvent(Apply(db, op).value)
  {
    var after := Apply(db, op).value;
    forall a | !IsInternal(a) ensures Balance(after.entries, a) >= 0 {
      match op
      case Serve(id, req, debitLag, creditLag) =>
        var debitSeen := Balance(db.entries, req.Debited()) - debitLag;
        ServedBalance(db, id, req, debitSeen, Balance(db.entries, req.Credited()) - creditLag, a);
        if a == req.Debited() { RoundDebit(debitSeen, req.amount.value); }
        assert Balance(db.entries, a) >= 0;
      case Post(ps, side) =>
        PostingBalance(ps, side, a);
        BalanceAppend(db.entries, PostingRows(ps, side).entries, a);
        assert Balance(db.entries, a) >= 0;
    }
  }

  /** No customer was overdrawn after any entry of the ledger, half-written transactions
      included. */
  ghost predicate SolventThroughout(es: seq<Entry>) {
    forall k: nat, a | k <= |es| && !IsInternal(a) :: Balance(es[..k], a) >= 0
  }

  lemma {:induction false} CreditsOnly(es: seq<Entry>, a: AccountId)
    requires forall e <- es :: e.account == a ==> e.side == Credit && e.amount > 0
    ensures Balance(es, a) >= 0
  {
    if es != [] { CreditsOnly(es[..|es| - 1], a); }
  }

  lemma {:induction false} ThroughoutGrows(es: seq<Entry>, more: seq<Entry>)
    requires SolventThroughout(es)
    requires forall m: nat, a | 0 < m <= |more| && !IsInternal(a) :: Balance(es, a) + Balance(more[..m], a) >= 0
    ensures SolventThroughout(es + more)
  {
    hide IsInternal;
    forall k: nat, a | k <= |es + more| && !IsInternal(a) ensures Balance((es + more)[..k], a) >= 0 {
      if k <= |es| {
        assert (es + more)[..k] == es[..k];
      } else {
        var m: nat := k - |es|;
        assert (es + more)[..k] == es + more[..m];
        BalanceAppend(es, more[..m], a);
      }
    }
  }

  /** The debit leg is written first, and the balance covers it. */
  lemma {:induction false} AfterDebitLeg(db: Tables, id: Id, req: Request, debitSeen: int, a: AccountId)
    requires req.amount.Amount? && Balance(db.entries, a) >= 0
    requires a == req.Debited() ==> Round(req.amount.value) <= Balance(db.entries, a)
    ensures Balance(db.entries, a) + Balance([DebitLeg(id, req, debitSeen)], a) >= 0
  {
    var leg := DebitLeg(id, req, debitSeen);
    assert [leg][..0] == [];
    assert Balance([leg], a) == Signed(leg, a);
  }

  lemma {:induction false} ServedThroughout(db: Tables, id: Id, req: Request, debitLag: nat, creditLag: nat)
    requires Solvent(db) && SolventThroughout(db.entries) && Apply(db, Serve(id, req, debitLag, creditLag)).Some?
    ensures SolventThroughout(Apply(db, Serve(id, req, debitLag, creditLag)).value.entries)
  {
    hide Apply, Validate, Covered, Balance, DebitLeg, CreditLeg, SolventThroughout, IdUsed;
    var op, debitSeen := Serve(id, req, debitLag, creditLag), Balance(db.entries, req.Debited()) - debitLag;
    ApplyKeepsSolvent(db, op);
    ServeFacts(db, id, req, debitLag, creditLag);
    RoundDebitFits(req, debitSeen);
    var legs := ServedRows(id, req, debitSeen, Balance(db.entries, req.Credited()) - creditLag).entries;
    forall m: nat, a | 0 < m <= |legs| && !IsInternal(a) ensures Balance(db.entries, a) + Balance(legs[..m], a) >= 0 {
      if m == 1 {
        assert legs[..1] == [DebitLeg(id, req, debitSeen)];
        AfterDebitLeg(db, id, req, debitSeen, a);
      } else {
        assert legs[..m] == legs;
        BalanceAppend(db.entries, legs, a);
      }
    }
    ThroughoutGrows(db.entries, legs);
  }

  lemma {:induction false} ServeFacts(db: Tables, id: Id, req: Request, debitLag: nat, creditLag: nat)
    requires Apply(db, Serve(id, req, debitLag, creditLag)).Some?
    ensures Acceptable(req) && !IdUsed(db, id) && Covered(req, Balance(db.entries, req.Debited()) - debitLag)
    ensures Apply(db, Serve(id, req, debitLag, creditLag)).value
         == Append(db, ServedRows(id, req, Balance(db.entries, req.Debited()) - debitLag,
                                  Balance(db.entries, req.Credited()) - creditLag))
  {
    hide Acceptable, Covered, IdUsed, KeyUsed, Balance, ServedRows, Storable;
  }

  /** A covered debit is still covered once it is rounded. */
  lemma {:induction false} RoundDebitFits(req: Request, debitSeen: int)
    requires Acceptable(req) && Covered(req, debitSeen)
    ensures !IsInternal(req.Debited()) ==> Round(req.amount.value) <= debitSeen
  {
    if !req.DepositRequest? { RoundDebit(debitSeen, req.amount.value); }
  }

  lemma {:induction false} PostedThroughout(db: Tables, ps: seq<Posting>, side: Side)
    requires Solvent(db) && SolventThroughout(db.entries) && FreshPostings(db, ps)
    ensures SolventThroughout(db.entries + PostingRows(ps, side).entries)
  {
    PostingLegsOnly(ps, side);
    hide PostingRows;
    var legs := PostingRows(ps, side).entries;
    forall m: nat, a | 0 < m <= |legs| && !IsInternal(a) ensures Balance(db.entries, a) + Balance(legs[..m], a) >= 0 {
      forall e | e in legs[..m] && e.account == a ensures e.side == Credit && e.amount > 0 {
        assert e in legs;
      }
      CreditsOnly(legs[..m], a);
    }
    ThroughoutGrows(db.entries, legs);
  }

  // ---------- One transaction per key and per id ----------

  predicate UniqueHeaders(db: Tables) {
    forall i, j | 0 <= i < j < |db.txns| :: db.txns[i].key != db.txns[j].key && db.txns[i].id != db.txns[j].id
  }

  lemma {:induction false} SameKeySameTxn(db: Tables, t: Txn, u: Txn)
    requires UniqueHeaders(db) && t in db.txns && u in db.txns && t.key == u.key
    ensures t == u
  {
    var i :| 0 <= i < |db.txns| && db.txns[i] == t;
    var j :| 0 <= j < |db.txns| && db.txns[j] == u;
    assert i == j;
  }

  lemma {:induction false} ApplyKeepsUnique(db: Tables, op: Op)
    requires UniqueHeaders(db) && Apply(db, op).Some?
    ensures UniqueHeaders(Apply(db, op).value)
  {
    if op.Post? { PostingTxns(op.postings, op.expenseSide); }
    var after, n := Apply(db, op).value, |db.txns|;
    hide IsInternal, Acceptable, Covered, Storable, Balance;
    forall i, j | 0 <= i < j < |after.txns|
      ensures after.txns[i].key != after.txns[j].key && after.txns[i].id != after.txns[j].id
    {
      if j >= n && i < n { assert db.txns[i] in db.txns; }
    }
  }

  // ---------- Double entry ----------

  /** The transaction of a header is settled; if a customer asked for it, it has exactly one
      debit and one credit of the same stored amount and currency, on different accounts,
      and exactly one outbox event, which names those accounts. */
  predicate DoubleEntry(db: Tables, t: Txn) {
    && t.status == Settled
    && (t.kind != Interest ==>
          var legs, events := LegsOf(db.entries, t.id), EventsOf(db.outbox, t.id);
          && |legs| == 2 && |events| == 1
          && legs[0].side == Debit && legs[1].side == Credit
          && legs[0].amount == legs[1].amount == Round(events[0].amount) > 0
          && legs[0].currency == legs[1].currency == events[0].currency
          && legs[0].account == events[0].debited != events[0].credited == legs[1].account
          && legs[0].kind == legs[1].kind == events[0].kind == t.kind)
  }

  /** Every row belongs to a transaction. */
  predicate NoOrphans(db: Tables) {
    && (forall e <- db.entries :: IdUsed(db, e.txn))
    && (forall v <- db.outbox :: IdUsed(db, v.txn))
  }

  lemma {:induction false} LegsOfAppend(es: seq<Entry>, more: seq<Entry>, id: Id)
    ensures LegsOf(es + more, id) == LegsOf(es, id) + LegsOf(more, id)
  {
    if more == [] {
      assert es + more == es;
    } else {
      var rest := more[..|more| - 1];
      assert (es + more)[..|es + more| - 1] == es + rest;
      LegsOfAppend(es, rest, id);
    }
  }

  lemma {:induction false} NoLegs(es: seq<Entry>, id: Id)
    requires forall e <- es :: e.txn != id
    ensures LegsOf(es, id) == []
  {
    if es != [] { NoLegs(es[..|es| - 1], id); }
  }

  lemma {:induction false} EventsOfAppend(vs: seq<Event>, more: seq<Event>, id: Id)
    ensures EventsOf(vs + more, id) == EventsOf(vs, id) + EventsOf(more, id)
  {
    if more == [] {
      assert vs + more == vs;
    } else {
      var rest := more[..|more| - 1];
      assert (vs + more)[..|vs + more| - 1] == vs + rest;
      EventsOfAppend(vs, rest, id);
    }
  }

  lemma {:induction false} NoEvents(vs: seq<Event>, id: Id)
    requires forall v <- vs :: v.txn != id
    ensures EventsOf(vs, id) == []
  {
    if vs != [] { NoEvents(vs[..|vs| - 1], id); }
  }

  /** The rows `more` belong to transactions that `db` does not have. */
  predicate Foreign(db: Tables, more: Tables) {
    && (forall t <- more.txns :: !IdUsed(db, t.id))
    && NoOrphans(more)
  }

  /** Insert-only: what is recorded of an existing transaction never changes. */
  lemma {:induction false} ForeignRowsChangeNothing(db: Tables, more: Tables, id: Id)
    requires Foreign(db, more) && IdUsed(db, id)
    ensures LegsOf(Append(db, more).entries, id) == LegsOf(db.entries, id)
    ensures EventsOf(Append(db, more).outbox, id) == EventsOf(db.outbox, id)
  {
    LegsOfAppend(db.entries, more.entries, id);
    NoLegs(more.entries, id);
    EventsOfAppend(db.outbox, more.outbox, id);
    NoEvents(more.outbox, id);
  }

  /** The same seen from the new rows. */
  lemma {:induction false} ForeignRowsStandAlone(db: Tables, more: Tables, id: Id)
    requires NoOrphans(db) && !IdUsed(db, id)
    ensures LegsOf(Append(db, more).entries, id) == LegsOf(more.entries, id)
    ensures EventsOf(Append(db, more).outbox, id) == EventsOf(more.outbox, id)
  {
    LegsOfAppend(db.entries, more.entries, id);
    NoLegs(db.entries, id);
    EventsOfAppend(db.outbox, more.outbox, id);
    NoEvents(db.outbox, id);
  }

  lemma {:induction false} ServedIsDoubleEntry(id: Id, req: Request, debitSeen: int, creditSeen: int)
    requires Acceptable(req)
    requires forall e <- ServedRows(id, req, debitSeen, creditSeen).entries :: Storable(e)
    ensures var rows := ServedRows(id, req, debitSeen, creditSeen);
            NoOrphans(rows) && forall t <- rows.txns :: DoubleEntry(rows, t)
  {
    var rows := ServedRows(id, req, debitSeen, creditSeen);
    var debit, credit, event := rows.entries[0], rows.entries[1], rows.outbox[0];
    assert rows.txns[0].id == id;
    assert rows.entries[..1] == [debit] && [debit][..0] == [];
    assert LegsOf([debit], id) == [debit];
    assert LegsOf(rows.entries, id) == [debit, credit];
    assert rows.outbox[..0] == [];
    assert EventsOf(rows.outbox, id) == [event];
    assert Storable(debit);
    assert !IsInternal(req.Accounts()[0]);
  }

  lemma {:induction false} PostingsHaveHeaders(ps: seq<Posting>, side: Side)
    ensures NoOrphans(PostingRows(ps, side))
  {
    PostingTxns(ps, side);
    PostingLegsOnly(ps, side);
    var rows := PostingRows(ps, side);
    forall e | e in rows.entries ensures IdUsed(rows, e.txn) {
      var p :| p in ps && e in PostingLegs(p, side);
      var i :| 0 <= i < |ps| && ps[i] == p;
      assert rows.txns[i] in rows.txns && rows.txns[i].id == e.txn;
    }
  }

  /** An operation appends foreign rows, each of whose transactions is in double entry. */
  lemma {:induction false} ApplyAppends(db: Tables, op: Op) returns (rows: Tables)
    requires Apply(db, op).Some?
    ensures Apply(db, op).value == Append(db, rows)
    ensures Foreign(db, rows) && forall t <- rows.txns :: DoubleEntry(rows, t)
  {
    match op
    case Serve(id, req, debitLag, creditLag) =>
      var debitSeen := Balance(db.entries, req.Debited()) - debitLag;
      var creditSeen := Balance(db.entries, req.Credited()) - creditLag;
      rows := ServedRows(id, req, debitSeen, creditSeen);
      ServedIsDoubleEntry(id, req, debitSeen, creditSeen);
    case Post(ps, side) =>
      rows := PostingRows(ps, side);
      PostingTxns(ps, side);
      PostingsHaveHeaders(ps, side);
      forall t | t in rows.txns ensures !IdUsed(db, t.id) && DoubleEntry(rows, t) {
        var i :| 0 <= i < |ps| && rows.txns[i] == t;
        assert ps[i] in ps;
      }
  }

  ghost predicate Booked(db: Tables) {
    NoOrphans(db) && forall t <- db.txns :: DoubleEntry(db, t)
  }

  lemma {:induction false} ApplyKeepsBooked(db: Tables, op: Op)
    requires Booked(db) && Apply(db, op).Some?
    ensures Booked(Apply(db, op).value)
  {
    var rows := ApplyAppends(db, op);
    var after := Append(db, rows);
    hide Apply;
    forall t | t in after.txns ensures DoubleEntry(after, t) {
      if t in db.txns {
        ForeignRowsChangeNothing(db, rows, t.id);
      } else {
        ForeignRowsStandAlone(db, rows, t.id);
      }
    }
    forall e | e in after.entries ensures IdUsed(after, e.txn) {
      IdUsedAppend(db, rows, e.txn);
    }
    forall v | v in after.outbox ensures IdUsed(after, v.txn) {
      IdUsedAppend(db, rows, v.txn);
    }
  }

  // ---------- Totals per currency ----------

  /** Total credits minus total debits in one currency, all accounts together. */
  function NetTotal(es: seq<Entry>, currency: string): int {
    if es == [] then 0
    else
      var e := es[|es| - 1];
      NetTotal(es[..|es| - 1], currency)
      + (if e.currency != currency then 0 else if e.side == Credit then e.amount else -e.amount)
  }

  /** Everything ever credited to customers as interest. */
  function InterestPaid(es: seq<Entry>): int {
    if es == [] then 0
    else
      var e := es[|es| - 1];
      InterestPaid(es[..|es| - 1]) + (if e.kind == Interest && e.account != GL_INTEREST_EXPENSE then e.amount else 0)
  }

  lemma {:induction false} TotalsAppend(es: seq<Entry>, more: seq<Entry>, currency: string)
    ensures NetTotal(es + more, currency) == NetTotal(es, currency) + NetTotal(more, currency)
    ensures InterestPaid(es + more) == InterestPaid(es) + InterestPaid(more)
  {
    if more == [] {
      assert es + more == es;
    } else {
      var rest := more[..|more| - 1];
      assert (es + more)[..|es + more| - 1] == es + rest;
      TotalsAppend(es, rest, currency);
    }
  }

  /** How far one currency is from balancing when the expense leg is written on `side`. */
  function Excess(es: seq<Entry>, side: Side, currency: string): int {
    if side == Credit && currency == INTEREST_CURRENCY then 2 * InterestPaid(es) else 0
  }

  lemma {:induction false} PairTotals(x: Entry, y: Entry, currency: string)
    ensures NetTotal([x, y], currency) == NetTotal([x], currency) + NetTotal([y], currency)
    ensures InterestPaid([x, y]) == InterestPaid([x]) + InterestPaid([y])
  {
    assert [x, y] == [x] + [y];
    TotalsAppend([x], [y], currency);
  }

  lemma {:induction false} PostingTotals(ps: seq<Posting>, side: Side, currency: string)
    requires forall p <- ps :: !IsInternal(p.account)
    ensures var es := PostingRows(ps, side).entries; NetTotal(es, currency) == Excess(es, side, currency)
  {
    if ps != [] {
      var rest, legs := ps[..|ps| - 1], PostingLegs(ps[|ps| - 1], side);
      PostingTotals(rest, side, currency);
      TotalsAppend(PostingRows(rest, side).entries, legs, currency);
      PairTotals(legs[0], legs[1], currency);
    }
  }

  lemma {:induction false} ServedTotals(id: Id, req: Request, debitSeen: int, creditSeen: int, currency: string)
    requires Acceptable(req)
    ensures var legs := ServedRows(id, req, debitSeen, creditSeen).entries;
            NetTotal(legs, currency) == 0 && InterestPaid(legs) == 0
  {
    var legs := ServedRows(id, req, debitSeen, creditSeen).entries;
    PairTotals(legs[0], legs[1], currency);
  }

  lemma {:induction false} ApplyKeepsTotals(db: Tables, op: Op, side: Side, currency: string)
    requires Apply(db, op).Some? && (op.Post? ==> op.expenseSide == side)
    requires NetTotal(db.entries, currency) == Excess(db.entries, side, currency)
    ensures var es := Apply(db, op).value.entries; NetTotal(es, currency) == Excess(es, side, currency)
  {
    hide NetTotal, InterestPaid, ServedRows, PostingRows, FreshPostings, Validate, KeyUsed, IdUsed, Covered, Storable;
    match op
    case Serve(id, req, debitLag, creditLag) =>
      var debitSeen := Balance(db.entries, req.Debited()) - debitLag;
      var creditSeen := Balance(db.entries, req.Credited()) - creditLag;
      ServedTotals(id, req, debitSeen, creditSeen, currency);
      TotalsAppend(db.entries, ServedRows(id, req, debitSeen, creditSeen).entries, currency);
    case Post(ps, _) =>
      FreshAreCustomers(db, ps);
      PostingTotals(ps, side, currency);
      TotalsAppend(db.entries, PostingRows(ps, side).entries, currency);
  }

  lemma {:induction false} FreshAreCustomers(db: Tables, ps: seq<Posting>)
    requires FreshPostings(db, ps)
    ensures forall p <- ps :: !IsInternal(p.account)
  {
  }

  // ---------- Running balances ----------

  /** The running balance stored on row `i` against the true balance after that row: it is
      `lag` behind, and on a debit leg one unit too much when the requested amount lay half
      way between two storable ones. */
  predicate RunningBehind(db: Tables, i: nat, lag: int)
    requires i < |db.entries|
  {
    var e := db.entries[i];
    var truth := Balance(db.entries[..i + 1], e.account);
    !IsInternal(e.account) && e.kind != Interest ==>
      && |EventsOf(db.outbox, e.txn)| == 1
      && (e.side == Credit ==> e.running == truth - lag)
      && (e.side == Debit ==>
            e.running == truth - lag + (if IsTie(EventsOf(db.outbox, e.txn)[0].amount) then 1 else 0))
  }

  /** The stored running balance is the true one, up to a rounding tie. */
  predicate RunningOk(db: Tables, i: nat)
    requires i < |db.entries|
  {
    RunningBehind(db, i, 0)
  }

  ghost predicate RunningBalancesOk(db: Tables) {
    forall i | 0 <= i < |db.entries| :: RunningOk(db, i)
  }

  /** Rows already there keep their standing. */
  lemma {:induction false} RunningOkAppend(db: Tables, more: Tables, i: nat)
    requires i < |db.entries| && RunningOk(db, i) && NoOrphans(db) && Foreign(db, more)
    ensures RunningOk(Append(db, more), i)
  {
    var after := Append(db, more);
    assert after.entries[i] == db.entries[i] && after.entries[..i + 1] == db.entries[..i + 1];
    assert db.entries[i] in db.entries;
    ForeignRowsChangeNothing(db, more, db.entries[i].txn);
  }

  /** A new transaction has the one event written with it. */
  lemma {:induction false} ServedEvents(db: Tables, id: Id, req: Request, debitSeen: int, creditSeen: int)
    requires Booked(db) && req.amount.Amount? && !IdUsed(db, id)
    ensures EventsOf(Append(db, ServedRows(id, req, debitSeen, creditSeen)).outbox, id) == [SettledEvent(id, req)]
  {
    var rows := ServedRows(id, req, debitSeen, creditSeen);
    EventsOfAppend(db.outbox, rows.outbox, id);
    NoEvents(db.outbox, id);
    assert rows.outbox[..0] == [];
  }

  lemma {:induction false} ServedDebitTruth(db: Tables, id: Id, req: Request, debitSeen: int, creditSeen: int)
    requires req.amount.Amount?
    ensures Balance(Append(db, ServedRows(id, req, debitSeen, creditSeen)).entries[..|db.entries| + 1], req.Debited())
         == Balance(db.entries, req.Debited()) - Round(req.amount.value)
  {
    hide Round;
    var leg, after := DebitLeg(id, req, debitSeen), Append(db, ServedRows(id, req, debitSeen, creditSeen));
    assert after.entries[..|db.entries| + 1] == db.entries + [leg];
    assert (db.entries + [leg])[..|db.entries|] == db.entries;
  }

  lemma {:induction false} ServedDebitRunning(db: Tables, id: Id, req: Request, debitLag: nat, creditSeen: int)
    requires Booked(db) && Acceptable(req) && !IdUsed(db, id)
    requires Covered(req, Balance(db.entries, req.Debited()) - debitLag)
    ensures var rows := ServedRows(id, req, Balance(db.entries, req.Debited()) - debitLag, creditSeen);
            RunningBehind(Append(db, rows), |db.entries|, debitLag)
  {
    hide Booked, EventsOf, IdUsed, Balance, Round, Validate, IsTie;
    var seen := Balance(db.entries, req.Debited()) - debitLag;
    ServedEvents(db, id, req, seen, creditSeen);
    ServedDebitTruth(db, id, req, seen, creditSeen);
    if req.Debited() != GL_CASH { RoundDebit(seen, req.amount.value); }
  }

  lemma {:induction false} ServedCreditTruth(db: Tables, id: Id, req: Request, debitSeen: int, creditSeen: int)
    requires Acceptable(req) && !IsInternal(req.Credited())
    ensures Balance(Append(db, ServedRows(id, req, debitSeen, creditSeen)).entries[..|db.entries| + 2], req.Credited())
         == Balance(db.entries, req.Credited()) + Round(req.amount.value)
  {
    hide Round;
    var rows := ServedRows(id, req, debitSeen, creditSeen);
    var after := Append(db, rows);
    assert after.entries[..|after.entries|] == db.entries + rows.entries;
    ServedBalance(db, id, req, debitSeen, creditSeen, req.Credited());
    assert req.Debited() != req.Credited();
  }

  lemma {:induction false} ServedCreditRunning(db: Tables, id: Id, req: Request, debitSeen: int, creditLag: nat)
    requires Booked(db) && Acceptable(req) && !IdUsed(db, id)
    requires creditLag <= Balance(db.entries, req.Credited()) || IsInternal(req.Credited())
    ensures var rows := ServedRows(id, req, debitSeen, Balance(db.entries, req.Credited()) - creditLag);
            RunningBehind(Append(db, rows), |db.entries| + 1, creditLag)
  {
    hide Booked, EventsOf, IdUsed, Balance, Round, Validate;
    var seen := Balance(db.entries, req.Credited()) - creditLag;
    ServedEvents(db, id, req, debitSeen, seen);
    if !IsInternal(req.Credited()) {
      ServedCreditTruth(db, id, req, debitSeen, seen);
      RoundCredit(seen, req.amount.value);
    }
  }

  /** What a served request stores as running balances, given how far the balances it saw
      were behind. */
  lemma {:induction false} ServedRunning(db: Tables, id: Id, req: Request, debitLag: nat, creditLag: nat)
    requires Booked(db) && Apply(db, Serve(id, req, debitLag, creditLag)).Some?
    requires creditLag <= Balance(db.entries, req.Credited()) || IsInternal(req.Credited())
    ensures var after, n := Apply(db, Serve(id, req, debitLag, creditLag)).value, |db.entries|;
            |after.entries| == n + 2 && RunningBehind(after, n, debitLag) && RunningBehind(after, n + 1, creditLag)
  {
    hide Apply, Booked, RunningBehind, DebitLeg, CreditLeg, Acceptable, Covered, IdUsed, Balance, IsInternal;
    ServeFacts(db, id, req, debitLag, creditLag);
    ServedDebitRunning(db, id, req, debitLag, Balance(db.entries, req.Credited()) - creditLag);
    ServedCreditRunning(db, id, req, Balance(db.entries, req.Debited()) - debitLag, creditLag);
  }

  lemma {:induction false} ServeKeepsRunning(db: Tables, id: Id, req: Request)
    requires Solvent(db) && Booked(db) && RunningBalancesOk(db) && Apply(db, Serve(id, req, 0, 0)).Some?
    ensures RunningBalancesOk(Apply(db, Serve(id, req, 0, 0)).value)
  {
    hide Apply, Booked, RunningBehind, DebitLeg, CreditLeg;
    assert IsInternal(req.Credited()) || Balance(db.entries, req.Credited()) >= 0;
    var rows := ApplyAppends(db, Serve(id, req, 0, 0));
    var after, n := Append(db, rows), |db.entries|;
    hide Solvent, Balance, IsInternal;
    ServedRunning(db, id, req, 0, 0);
    forall i | 0 <= i < |after.entries| ensures RunningOk(after, i) {
      if i < n { BookedHasNoOrphans(db); RunningOkAppend(db, rows, i); }
    }
  }

  lemma {:induction false} BookedHasNoOrphans(db: Tables)
    requires Booked(db)
    ensures NoOrphans(db)
  {
  }

  lemma {:induction false} PostKeepsRunning(db: Tables, ps: seq<Posting>, side: Side)
    requires Booked(db) && RunningBalancesOk(db) && Apply(db, Post(ps, side)).Some?
    ensures RunningBalancesOk(Apply(db, Post(ps, side)).value)
  {
    var rows := ApplyAppends(db, Post(ps, side));
    var after, n := Append(db, rows), |db.entries|;
    BookedHasNoOrphans(db);
    PostingLegsOnly(ps, side);
    assert after == Append(db, PostingRows(ps, side));
    hide Apply, Booked;
    forall i | 0 <= i < |after.entries| ensures RunningOk(after, i) {
      if i < n {
        RunningOkAppend(db, rows, i);
      } else {
        assert after.entries[i] == PostingRows(ps, side).entries[i - n];
        assert after.entries[i] in PostingRows(ps, side).entries;
      }
    }
  }

  lemma {:induction false} ApplyKeepsRunning(db: Tables, op: Op)
    requires Solvent(db) && Booked(db) && RunningBalancesOk(db) && Apply(db, op).Some? && op.Prompt()
    ensures RunningBalancesOk(Apply(db, op).value)
  {
    hide Apply, Solvent, Booked, RunningBalancesOk;
    match op
    case Serve(id, req, _, _) => ServeKeepsRunning(db, id, req);
    case Post(ps, side) => PostKeepsRunning(db, ps, side);
  }

  // ---------- Whole histories ----------

  ghost predicate Lawful(db: Tables) {
    Solvent(db) && UniqueHeaders(db) && Booked(db)
  }

  lemma {:induction false} HistoryLawful(db: Tables, ops: seq<Op>)
    requires Lawful(db) && ApplyAll(db, ops).Some?
    ensures Lawful(ApplyAll(db, ops).value)
    decreases |ops|
  {
    if ops != [] {
      ApplyKeepsSolvent(db, ops[0]);
      ApplyKeepsUnique(db, ops[0]);
      ApplyKeepsBooked(db, ops[0]);
      hide Apply, Solvent, UniqueHeaders, Booked;
      HistoryLawful(Apply(db, ops[0]).value, ops[1..]);
    }
  }

  /** Every row of `db` is still there, in the same place. */
  predicate Extends(db: Tables, after: Tables) {
    db.txns <= after.txns && db.entries <= after.entries && db.outbox <= after.outbox
  }

  lemma {:induction false} HistoryExtends(db: Tables, ops: seq<Op>)
    requires ApplyAll(db, ops).Some?
    ensures Extends(db, ApplyAll(db, ops).value)
    decreases |ops|
  {
    hide Apply;
    if ops != [] {
      var rows := ApplyAppends(db, ops[0]);
      HistoryExtends(Apply(db, ops[0]).value, ops[1..]);
    }
  }

  lemma {:induction false} HistorySolvent(db: Tables, ops: seq<Op>)
    requires Solvent(db) && SolventThroughout(db.entries) && ApplyAll(db, ops).Some?
    ensures SolventThroughout(ApplyAll(db, ops).value.entries)
    decreases |ops|
  {
    if ops != [] {
      ApplyKeepsSolvent(db, ops[0]);
      match ops[0] {
        case Serve(id, req, debitLag, creditLag) => ServedThroughout(db, id, req, debitLag, creditLag);
        case Post(ps, side) => PostedThroughout(db, ps, side);
      }
      hide Solvent, SolventThroughout;
      HistorySolvent(Apply(db, ops[0]).value, ops[1..]);
    }
  }

  lemma {:induction false} HistoryTotals(db: Tables, ops: seq<Op>, side: Side, currency: string)
    requires ApplyAll(db, ops).Some? && forall op <- ops :: op.Post? ==> op.expenseSide == side
    requires NetTotal(db.entries, currency) == Excess(db.entries, side, currency)
    ensures var es := ApplyAll(db, ops).value.entries; NetTotal(es, currency) == Excess(es, side, currency)
    decreases |ops|
  {
    hide Apply;
    if ops != [] {
      ApplyKeepsTotals(db, ops[0], side, currency);
      HistoryTotals(Apply(db, ops[0]).value, ops[1..], side, currency);
    }
  }

  lemma {:induction false} HistoryRunning(db: Tables, ops: seq<Op>)
    requires Lawful(db) && RunningBalancesOk(db) && ApplyAll(db, ops).Some? && forall op <- ops :: op.Prompt()
    ensures RunningBalancesOk(ApplyAll(db, ops).value)
    decreases |ops|
  {
    if ops != [] {
      hide Apply, Solvent, UniqueHeaders, Booked, RunningBalancesOk;
      ApplyKeepsSolvent(db, ops[0]);
      ApplyKeepsUnique(db, ops[0]);
      ApplyKeepsBooked(db, ops[0]);
      ApplyKeepsRunning(db, ops[0]);
      HistoryRunning(Apply(db, ops[0]).value, ops[1..]);
    }
  }

  lemma {:induction false} EmptyLawful()
    ensures Lawful(EMPTY) && RunningBalancesOk(EMPTY)
  {
  }
}
