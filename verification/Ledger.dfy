/** The rows of the transaction schema and what one request does to them.

    `Apply` is the reference: one request, or one interest posting run, executed
    alone and in one piece.  The step machine of the transaction engine and the
    statement-by-statement service are both proved against it. */
module Ledger {
  import opened Common
  import opened Decimals
  import LexOrder

  type Key = string
  type Id = nat

  const GL_CASH: AccountId := "GL_CASH"
  const GL_INTEREST_EXPENSE: AccountId := "GL_INTEREST_EXPENSE"
  const INTEREST_CURRENCY := "UGX"

  predicate IsInternal(a: AccountId) { a == GL_CASH || a == GL_INTEREST_EXPENSE }

  datatype TxnType = Deposit | Withdrawal | Transfer | Interest

  datatype Status = Pending | Settled

  datatype Txn = Txn(id: Id, key: Key, kind: TxnType, status: Status)

  /** One immutable leg.  `kind` is the type on the leg's transaction header. */
  datatype Entry = Entry(txn: Id, kind: TxnType, account: AccountId, side: Side, amount: int, running: int,
                         currency: string)

  /** The outbox row of a transaction; its payload quotes the amount as requested. */
  datatype Event = Event(txn: Id, kind: TxnType, debited: AccountId, credited: AccountId, amount: real,
                         currency: string)

  datatype Tables = Tables(txns: seq<Txn>, entries: seq<Entry>, outbox: seq<Event>)

  const EMPTY := Tables([], [], [])

  function Append(db: Tables, more: Tables): Tables {
    Tables(db.txns + more.txns, db.entries + more.entries, db.outbox + more.outbox)
  }

  // ---------- Balances ----------

  function Signed(e: Entry, a: AccountId): int {
    if e.account != a then 0 else if e.side == Credit then e.amount else -e.amount
  }

  /** Credits minus debits of one account: the SUM behind every balance. */
  function Balance(es: seq<Entry>, a: AccountId): int {
    if es == [] then 0 else Balance(es[..|es| - 1], a) + Signed(es[|es| - 1], a)
  }

  lemma {:induction false} BalanceAppend(es: seq<Entry>, more: seq<Entry>, a: AccountId)
    ensures Balance(es + more, a) == Balance(es, a) + Balance(more, a)
  {
    if more == [] {
      assert es + more == es;
    } else {
      var rest := more[..|more| - 1];
      assert (es + more)[..|es + more| - 1] == es + rest;
      BalanceAppend(es, rest, a);
    }
  }

  lemma {:induction false} BalanceUntouched(es: seq<Entry>, a: AccountId)
    requires forall e <- es :: e.account != a
    ensures Balance(es, a) == 0
  {
    if es != [] { BalanceUntouched(es[..|es| - 1], a); }
  }

  /** Interest credited to one account. */
  function InterestCredits(es: seq<Entry>, a: AccountId): int {
    if es == [] then 0
    else
      var e := es[|es| - 1];
      InterestCredits(es[..|es| - 1], a) + (if e.kind == Interest && e.account == a && e.side == Credit then e.amount else 0)
  }

  // ---------- Requests ----------

  /** The amount field of a request, before and after parsing. */
  datatype AmountText = Missing | Malformed | Amount(value: real)

  datatype Request =
    | DepositRequest(account: AccountId, amount: AmountText, currency: string, key: Key)
    | WithdrawalRequest(account: AccountId, amount: AmountText, currency: string, key: Key)
    | TransferRequest(from: AccountId, to: AccountId, amount: AmountText, currency: string, key: Key)
  {
    function Kind(): TxnType {
      match this
      case DepositRequest(_, _, _, _) => Deposit
      case WithdrawalRequest(_, _, _, _) => Withdrawal
      case TransferRequest(_, _, _, _, _) => Transfer
    }

    /** The customer accounts named, in the order their status is checked. */
    function Accounts(): seq<AccountId> {
      if TransferRequest? then [from, to] else [account]
    }

    /** The account of the debit leg. */
    function Debited(): AccountId {
      match this
      case DepositRequest(_, _, _, _) => GL_CASH
      case WithdrawalRequest(a, _, _, _) => a
      case TransferRequest(a, _, _, _, _) => a
    }

    /** The account of the credit leg. */
    function Credited(): AccountId {
      match this
      case DepositRequest(a, _, _, _) => a
      case WithdrawalRequest(_, _, _, _) => GL_CASH
      case TransferRequest(_, a, _, _, _) => a
    }

    /** The customer accounts in the order they are locked. */
    function LockOrder(): seq<AccountId> {
      if TransferRequest? && LexOrder.Less(to, from) then [to, from] else Accounts()
    }
  }

  datatype Error = InvalidInput | SameAccount | AccountNotFound | AccountNotActive | InsufficientFunds
                 | DatabaseError

  /** The checks made before anything is read; None means the request is well formed. */
  function Validate(req: Request): (error: Option<Error>)
    ensures error.None? ==> req.amount.Amount? && req.amount.value > 0.0
  {
    if (exists a <- req.Accounts() :: a == "") then Some(InvalidInput)
    else if req.TransferRequest? && req.from == req.to then Some(SameAccount)
    else if !req.amount.Amount? || req.amount.value <= 0.0 then Some(InvalidInput)
    else if req.currency == "" || req.key == "" then Some(InvalidInput)
    else None
  }

  /** What is asked of a request before anything is read, whatever order it is checked in. */
  lemma {:induction false} ValidateIff(req: Request)
    ensures Validate(req).None? <==>
              && (forall a <- req.Accounts() :: a != "") && (req.TransferRequest? ==> req.from != req.to)
              && req.amount.Amount? && req.amount.value > 0.0 && req.currency != "" && req.key != ""
    ensures Validate(req) == Some(SameAccount) <==> req.TransferRequest? && req.from == req.to && req.to != ""
    ensures Validate(req).Some? ==> Validate(req).value == InvalidInput || Validate(req).value == SameAccount
  {
    if req.TransferRequest? {
      assert req.Accounts()[0] == req.from && req.Accounts()[1] == req.to;
      assert forall a :: a in req.Accounts() <==> a == req.from || a == req.to;
      assert req.from in req.Accounts() && req.to in req.Accounts();
    }
  }

  predicate WellFormed(req: Request)
    ensures WellFormed(req) ==> req.amount.Amount? && req.amount.value > 0.0
  {
    Validate(req) == None
  }

  /** A well-formed request on accounts that exist: no internal account is one of them. */
  predicate Acceptable(req: Request) {
    WellFormed(req) && forall a <- req.Accounts() :: !IsInternal(a)
  }

  // ---------- The rows one request writes ----------

  function Header(id: Id, req: Request, status: Status): Txn {
    Txn(id, req.key, req.Kind(), status)
  }

  /** The running balance of a leg: stored for customers, zero for the cash account. */
  function RunningAfter(a: AccountId, exact: real): int {
    if a == GL_CASH then 0 else Round(exact)
  }

  /** `before` is the balance of the debited customer when it was locked. */
  function DebitLeg(id: Id, req: Request, before: int): Entry
    requires req.amount.Amount?
  {
    Entry(id, req.Kind(), req.Debited(), Debit, Round(req.amount.value),
          RunningAfter(req.Debited(), before as real - req.amount.value), req.currency)
  }

  /** `before` is the balance of the credited customer when it was locked. */
  function CreditLeg(id: Id, req: Request, before: int): Entry
    requires req.amount.Amount?
  {
    Entry(id, req.Kind(), req.Credited(), Credit, Round(req.amount.value),
          RunningAfter(req.Credited(), before as real + req.amount.value), req.currency)
  }

  function SettledEvent(id: Id, req: Request): Event
    requires req.amount.Amount?
  {
    Event(id, req.Kind(), req.Debited(), req.Credited(), req.amount.value, req.currency)
  }

  /** The schema's conditions on one leg. */
  predicate Storable(e: Entry) { e.amount > 0 && Fits(e.amount) && Fits(e.running) }

  predicate KeyUsed(db: Tables, key: Key) { exists t <- db.txns :: t.key == key }

  predicate IdUsed(db: Tables, id: Id) { exists t <- db.txns :: t.id == id }

  // ---------- Interest postings ----------

  /** One accrual being posted: a fresh transaction id and key, the account, the stored amount. */
  datatype Posting = Posting(id: Id, key: Key, account: AccountId, amount: int)

  /** The two legs written for one posting; `expenseSide` is the side of the expense leg. */
  function PostingLegs(p: Posting, expenseSide: Side): seq<Entry> {
    [Entry(p.id, Interest, p.account, Credit, p.amount, 0, INTEREST_CURRENCY),
     Entry(p.id, Interest, GL_INTEREST_EXPENSE, expenseSide, p.amount, 0, INTEREST_CURRENCY)]
  }

  function PostingRows(ps: seq<Posting>, expenseSide: Side): Tables {
    if ps == [] then EMPTY
    else
      var p := ps[|ps| - 1];
      Append(PostingRows(ps[..|ps| - 1], expenseSide),
             Tables([Txn(p.id, p.key, Interest, Settled)], PostingLegs(p, expenseSide), []))
  }

  // ---------- The atomic reference ----------

  /** A served request, or an interest run that posts a batch.

      `debitLag` and `creditLag` say how far the balances the request saw were behind
      the ledger; a request served alone sees the ledger itself, so both are zero. */
  datatype Op =
    | Serve(id: Id, req: Request, debitLag: nat, creditLag: nat)
    | Post(postings: seq<Posting>, expenseSide: Side)
  {
    predicate Prompt() { Serve? ==> debitLag == 0 && creditLag == 0 }
  }

  /** The rows of a served request, given the customer balances it saw. */
  function ServedRows(id: Id, req: Request, debitSeen: int, creditSeen: int): Tables
    requires req.amount.Amount?
  {
    Tables([Header(id, req, Settled)],
           [DebitLeg(id, req, debitSeen), CreditLeg(id, req, creditSeen)],
           [SettledEvent(id, req)])
  }

  /** Money comes in with a deposit; otherwise the debited customer must have it. */
  predicate Covered(req: Request, debitSeen: int)
    requires req.amount.Amount?
  {
    req.DepositRequest? || req.amount.value <= debitSeen as real
  }

  predicate FreshPostings(db: Tables, ps: seq<Posting>) {
    && (forall p <- ps :: !IsInternal(p.account) && p.amount > 0 && !IdUsed(db, p.id) && !KeyUsed(db, p.key))
    && (forall i, j | 0 <= i < j < |ps| :: ps[i].id != ps[j].id && ps[i].key != ps[j].key)
  }

  /** One operation executed alone on `db`; None when it must leave `db` as it is. */
  function Apply(db: Tables, op: Op): Option<Tables> {
    match op
    case Serve(id, req, debitLag, creditLag) =>
      if !Acceptable(req) || KeyUsed(db, req.key) || IdUsed(db, id) then None
      else
        var debitSeen := Balance(db.entries, req.Debited()) - debitLag;
        var creditSeen := Balance(db.entries, req.Credited()) - creditLag;
        if !Covered(req, debitSeen) then None
        else
          var rows := ServedRows(id, req, debitSeen, creditSeen);
          if forall e <- rows.entries :: Storable(e) then Some(Append(db, rows)) else None
    case Post(ps, side) =>
      if FreshPostings(db, ps) then Some(Append(db, PostingRows(ps, side))) else None
  }

  function ApplyAll(db: Tables, ops: seq<Op>): Option<Tables>
    decreases |ops|
  {
    if ops == [] then Some(db)
    else
      var next := Apply(db, ops[0]);
      if next.None? then None else ApplyAll(next.value, ops[1..])
  }

  // ---------- Reading a transaction back ----------

  function FindKey(ts: seq<Txn>, key: Key): (r: Option<Txn>)
    ensures r.Some? ==> r.value in ts && r.value.key == key
    ensures r.None? ==> forall t <- ts :: t.key != key
  {
    if ts == [] then None
    else if ts[0].key == key then Some(ts[0])
    else FindKey(ts[1..], key)
  }

  function FindId(ts: seq<Txn>, id: Id): (r: Option<Txn>)
    ensures r.Some? ==> r.value in ts && r.value.id == id
    ensures r.None? ==> forall t <- ts :: t.id != id
  {
    if ts == [] then None
    else if ts[0].id == id then Some(ts[0])
    else FindId(ts[1..], id)
  }

  /** The legs of one transaction, in the order they were written. */
  function LegsOf(es: seq<Entry>, id: Id): seq<Entry> {
    if es == [] then []
    else LegsOf(es[..|es| - 1], id) + (if es[|es| - 1].txn == id then [es[|es| - 1]] else [])
  }

  function EventsOf(vs: seq<Event>, id: Id): seq<Event> {
    if vs == [] then []
    else EventsOf(vs[..|vs| - 1], id) + (if vs[|vs| - 1].txn == id then [vs[|vs| - 1]] else [])
  }
}
