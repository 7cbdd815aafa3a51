/** What each request and each interest posting leaves on record, field by field, and when a
    request is carried out at all. */
module Records {
  import opened Common
  import opened Decimals
  import opened Ledger
  import opened Engine
  import opened EngineInvariants
  import Bank
  import LedgerLaws
  import LexOrder
  import Reference
  import Serialisability

  /** `after` is `db` with the rows of a settled request; `read` gives the balances it read. */
  predicate Recorded(db: Tables, after: Tables, id: Id, req: Request, read: AccountId -> int) {
    match req
    case DepositRequest(a, Amount(v), currency, key) =>
      after == Tables(
        db.txns + [Txn(id, key, Deposit, Settled)],
        db.entries + [Entry(id, Deposit, "GL_CASH", Debit, Round(v), 0, currency),
                      Entry(id, Deposit, a, Credit, Round(v), Round(read(a) as real + v), currency)],
        db.outbox + [Event(id, Deposit, "GL_CASH", a, v, currency)])
    case WithdrawalRequest(a, Amount(v), currency, key) =>
      after == Tables(
        db.txns + [Txn(id, key, Withdrawal, Settled)],
        db.entries + [Entry(id, Withdrawal, a, Debit, Round(v), Round(read(a) as real - v), currency),
                      Entry(id, Withdrawal, "GL_CASH", Credit, Round(v), 0, currency)],
        db.outbox + [Event(id, Withdrawal, a, "GL_CASH", v, currency)])
    case TransferRequest(a, b, Amount(v), currency, key) =>
      after == Tables(
        db.txns + [Txn(id, key, Transfer, Settled)],
        db.entries + [Entry(id, Transfer, a, Debit, Round(v), Round(read(a) as real - v), currency),
                      Entry(id, Transfer, b, Credit, Round(v), Round(read(b) as real + v), currency)],
        db.outbox + [Event(id, Transfer, a, b, v, currency)])
    case _ => false
  }

  lemma {:induction false} NamedAccounts(req: Request)
    ensures match req
            case DepositRequest(a, _, _, _) => a in req.Accounts()
            case WithdrawalRequest(a, _, _, _) => a in req.Accounts()
            case TransferRequest(a, b, _, _, _) => a in req.Accounts() && b in req.Accounts()
  {
    match req
    case DepositRequest(a, _, _, _) => assert req.Accounts()[0] == a;
    case WithdrawalRequest(a, _, _, _) => assert req.Accounts()[0] == a;
    case TransferRequest(a, b, _, _, _) => assert req.Accounts()[0] == a && req.Accounts()[1] == b;
  }

  lemma {:induction false} ServedRecords(db: Tables, id: Id, req: Request, read: AccountId -> int)
    requires Acceptable(req)
    ensures Recorded(db, Append(db, ServedRows(id, req, read(req.Debited()), read(req.Credited()))), id, req, read)
  {
    NamedAccounts(req);
    hide Round, Validate;
  }

  /** The reference records a request as that request, on its own accounts, in its currency. */
  lemma {:induction false} ApplyRecords(db: Tables, id: Id, req: Request)
    requires Apply(db, Serve(id, req, 0, 0)).Some?
    ensures Recorded(db, Apply(db, Serve(id, req, 0, 0)).value, id, req, a => Balance(db.entries, a))
  {
    hide Apply, Acceptable, Covered, IdUsed, Balance, ServedRows, Append, Recorded;
    LedgerLaws.ServeFacts(db, id, req, 0, 0);
    ServedRecords(db, id, req, a => Balance(db.entries, a));
  }

  /** The balance a client read: that of the rows committed when it was granted the lock. */
  function ReadBalance(s: State, cl: Client, a: AccountId): int {
    if a in cl.seen && cl.seen[a].rows <= |s.db.entries| then Balance(s.db.entries[..cl.seen[a].rows], a) else 0
  }

  lemma {:induction false} SeenIsRead(s: State, c: Id, a: AccountId)
    requires Inv(s) && c in s.clients
    ensures SeenBalance(s.clients[c], a) == ReadBalance(s, s.clients[c], a)
  {
    var cl := s.clients[c];
    if a in cl.seen {
      assert ReadOk(s.db.entries, a, cl.seen[a]) by {
        assert ClientOk(s, c, cl);
        hide ShapeOk, HoldsOk, RowsOk, WellFormed;
      }
    }
  }

  /** A commit records the client's request as that request, on its own accounts, in its
      currency, with the running balances that follow from what it read. */
  lemma {:induction false} CommitRecords(s: State, c: Id)
    requires Inv(s) && CanStep(s, c) && s.clients[c].pc.Committing?
    ensures Recorded(s.db, DoStep(s, c).db, c, s.clients[c].req, a => ReadBalance(s, s.clients[c], a))
  {
    var cl := s.clients[c];
    Serialisability.CommittingFacts(s, c, cl);
    Serialisability.CommitRowsShape(c, cl);
    StepRowsFrame(s, c);
    hide Inv, DoStep, CanStep, ShapeOk, CommitRows, ServedRows, SeenBalance, ReadBalance, Append, Recorded, Covered, Validate;
    SeenIsRead(s, c, cl.req.Debited());
    SeenIsRead(s, c, cl.req.Credited());
    ServedRecords(s.db, c, cl.req, a => ReadBalance(s, cl, a));
  }

  /** The amount and the new balances of the request's accounts fit their columns. */
  predicate Representable(req: Request, read: AccountId -> int) {
    match req
    case DepositRequest(a, Amount(v), _, _) => 0 < Round(v) && Fits(Round(v)) && Fits(Round(read(a) as real + v))
    case WithdrawalRequest(a, Amount(v), _, _) => 0 < Round(v) && Fits(Round(v)) && Fits(Round(read(a) as real - v))
    case TransferRequest(a, b, Amount(v), _, _) =>
      0 < Round(v) && Fits(Round(v)) && Fits(Round(read(a) as real - v)) && Fits(Round(read(b) as real + v))
    case _ => false
  }

  /** Money may come in; otherwise the paying account must have it. */
  predicate Funded(req: Request, read: AccountId -> int) {
    match req
    case DepositRequest(_, _, _, _) => true
    case WithdrawalRequest(a, Amount(v), _, _) => v <= read(a) as real
    case TransferRequest(a, _, Amount(v), _, _) => v <= read(a) as real
    case _ => false
  }

  lemma {:induction false} RowsRepresentable(id: Id, req: Request, read: AccountId -> int)
    requires Acceptable(req)
    ensures Covered(req, read(req.Debited())) <==> Funded(req, read)
    ensures (forall e <- ServedRows(id, req, read(req.Debited()), read(req.Credited())).entries :: Storable(e))
       <==> Representable(req, read)
  {
    NamedAccounts(req);
    var rows := ServedRows(id, req, read(req.Debited()), read(req.Credited())).entries;
    assert rows == [rows[0], rows[1]];
    assert (forall e <- rows :: Storable(e)) <==> Storable(rows[0]) && Storable(rows[1]) by {
      assert rows[0] in rows && rows[1] in rows;
      hide Storable;
    }
    assert Round(0.0) == 0;
    hide Round, Validate;
  }

  /** Served alone, a request is carried out exactly if it is well formed and on customer
      accounts, its key and id are new, the paying account has the money, and the amount and
      the new balances can be stored. */
  lemma {:induction false} AppliesIff(db: Tables, id: Id, req: Request)
    ensures Apply(db, Serve(id, req, 0, 0)).Some? <==>
              && Validate(req).None? && (forall a <- req.Accounts() :: a != "GL_CASH" && a != "GL_INTEREST_EXPENSE")
              && (forall t <- db.txns :: t.key != req.key && t.id != id)
              && Funded(req, a => Balance(db.entries, a)) && Representable(req, a => Balance(db.entries, a))
  {
    hide Validate, Storable, ServedRows, Covered, Funded, Representable, Append, Balance;
    if Acceptable(req) { RowsRepresentable(id, req, a => Balance(db.entries, a)); }
  }

  // ---------- Requests of the serial bank ----------

  predicate ActiveIn(s: Bank.State, a: AccountId) { a in s.accounts && s.accounts[a].standing == Active }

  /** A request to the serial bank does to the tables what it does when carried out by itself. */
  lemma {:induction false} ServedIsByItself(s: Bank.State, id: Id, req: Request)
    ensures var accounts := map a | a in s.accounts :: s.accounts[a].standing == Active;
            Bank.Served(s, id, req) == s.(tables := Reference.ByItself(s.tables, accounts, id, req).tables)
  {
    var accounts := map a | a in s.accounts :: s.accounts[a].standing == Active;
    AppliesIff(s.tables, id, req);
    hide Apply, Validate, Funded, Representable;
  }

  // ---------- Interest ----------

  /** The rows one interest posting adds: the customer's credit and, on the side the statement
      has as a literal, the expense leg. */
  predicate RecordedInterest(db: Tables, after: Tables, p: Posting) {
    after == Tables(
      db.txns + [Txn(p.id, p.key, Interest, Settled)],
      db.entries + [Entry(p.id, Interest, p.account, Credit, p.amount, 0, "UGX"),
                    Entry(p.id, Interest, "GL_INTEREST_EXPENSE", Credit, p.amount, 0, "UGX")],
      db.outbox)
  }

  /** A posting run is carried out exactly if every posting is of a positive amount to a
      customer account, and the ids and keys are new and pairwise different. */
  lemma {:induction false} PostsIff(db: Tables, ps: seq<Posting>, side: Side)
    ensures Apply(db, Post(ps, side)).Some? <==>
              && (forall p <- ps :: p.account != "GL_CASH" && p.account != "GL_INTEREST_EXPENSE" && p.amount > 0)
              && (forall p, t | p in ps && t in db.txns :: t.id != p.id && t.key != p.key)
              && (forall i, j | 0 <= i < j < |ps| :: ps[i].id != ps[j].id && ps[i].key != ps[j].key)
  {
    hide PostingRows;
  }

  /** Each posting of a run is recorded in that way, after the ones before it. */
  lemma {:induction false} PostingsRecorded(ps: seq<Posting>)
    requires ps != []
    ensures RecordedInterest(PostingRows(ps[..|ps| - 1], Bank.EXPENSE_SIDE), PostingRows(ps, Bank.EXPENSE_SIDE), ps[|ps| - 1])
  {
    assert forall xs: seq<Event> :: xs + [] == xs;
  }
}
