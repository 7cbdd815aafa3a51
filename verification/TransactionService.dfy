/** The transaction service statement by statement, as one caller sees it: the database
    tables are updated in place and a failed database transaction is rolled back.  Each
    operation is proved to do to the tables what the atomic reference does. */
module TransactionService {
  import opened Common
  import opened Decimals
  import opened Ledger
  import opened Reference
  import Engine
  import LexOrder

  /** An entry as the service builds it, with exact amounts. */
  datatype Draft = Draft(txn: Id, kind: TxnType, account: AccountId, side: Side, amount: real, running: real,
                         currency: string)

  /** The row the entry table keeps for it. */
  function Stored(d: Draft): Entry {
    Entry(d.txn, d.kind, d.account, d.side, Round(d.amount), Round(d.running), d.currency)
  }

  /** Which database call fails, if any: calls are numbered in the order they are made. */
  type Fault = nat

  class Service {
    var txns: seq<Txn>
    var entries: seq<Entry>
    var outbox: seq<Event>
    var accounts: map<AccountId, bool>

    constructor (active: map<AccountId, bool>)
      ensures Rows() == EMPTY && accounts == active
    {
      txns, entries, outbox, accounts := [], [], [], active;
    }

    function Rows(): Tables
      reads this
    {
      Tables(txns, entries, outbox)
    }

    // ---------- Repository ----------

    /** INSERT INTO transactions: the key and the id are unique. */
    method Create(txn: Txn, fails: bool) returns (ok: bool)
      modifies this`txns
      ensures ok == (!fails && !KeyUsed(old(Rows()), txn.key) && !IdUsed(old(Rows()), txn.id))
      ensures txns == if ok then old(txns) + [txn] else old(txns)
    {
      ok := !fails && FindKey(txns, txn.key).None? && FindId(txns, txn.id).None?;
      if ok { txns := txns + [txn]; }
    }

    /** INSERT INTO transaction_entries: amounts are rounded to the column and checked. */
    method CreateEntry(draft: Draft, fails: bool) returns (ok: bool)
      modifies this`entries
      ensures ok == (!fails && Storable(Stored(draft)))
      ensures entries == if ok then old(entries) + [Stored(draft)] else old(entries)
    {
      ok := !fails && Storable(Stored(draft));
      if ok { entries := entries + [Stored(draft)]; }
    }

    /** UPDATE transactions SET status = ... WHERE id = ... */
    method UpdateStatus(id: Id, status: Status, fails: bool) returns (ok: bool)
      modifies this`txns
      ensures ok == !fails
      ensures |txns| == |old(txns)|
      ensures forall i | 0 <= i < |txns| ::
                txns[i] == if ok && old(txns)[i].id == id then old(txns)[i].(status := status) else old(txns)[i]
    {
      ok := !fails;
      if ok {
        var i := 0;
        while i < |txns|
          invariant 0 <= i <= |txns| == |old(txns)|
          invariant forall j | 0 <= j < i ::
                      txns[j] == if old(txns)[j].id == id then old(txns)[j].(status := status) else old(txns)[j]
          invariant forall j | i <= j < |txns| :: txns[j] == old(txns)[j]
        {
          if txns[i].id == id { txns := txns[i := txns[i].(status := status)]; }
          i := i + 1;
        }
      }
    }

    /** SUM of credits minus SUM of debits over the account's entries. */
    method GetCurrentBalance(account: AccountId) returns (balance: int)
      ensures balance == Balance(entries, account)
    {
      var credits, debits := 0, 0;
      var i := 0;
      while i < |entries|
        invariant 0 <= i <= |entries|
        invariant credits - debits == Balance(entries[..i], account)
      {
        var e := entries[i];
        assert entries[..i + 1][..i] == entries[..i];
        if e.account == account {
          if e.side == Credit { credits := credits + e.amount; } else { debits := debits + e.amount; }
        }
        i := i + 1;
      }
      assert entries[..i] == entries;
      balance := credits - debits;
    }

    method InsertOutboxEvent(event: Event, fails: bool) returns (ok: bool)
      modifies this`outbox
      ensures ok == !fails
      ensures outbox == if ok then old(outbox) + [event] else old(outbox)
    {
      ok := !fails;
      if ok { outbox := outbox + [event]; }
    }

    /** The transaction with its legs, collected row by row. */
    method FetchResponse(id: Id, fails: bool) returns (outcome: Engine.Outcome)
      ensures outcome ==
        if fails || FindId(txns, id).None? then Engine.Failed(DatabaseError)
        else Engine.Responded(Engine.Response(FindId(txns, id).value, LegsOf(entries, id)))
    {
      var header := FindId(txns, id);
      if fails || header.None? { return Engine.Failed(DatabaseError); }
      var legs := [];
      var i := 0;
      while i < |entries|
        invariant 0 <= i <= |entries|
        invariant legs == LegsOf(entries[..i], id)
      {
        assert entries[..i + 1][..i] == entries[..i];
        if entries[i].txn == id { legs := legs + [entries[i]]; }
        i := i + 1;
      }
      assert entries[..i] == entries;
      outcome := Engine.Responded(Engine.Response(header.value, legs));
    }

    // ---------- The writes common to the three operations, in their order ----------

    /** PENDING header, debit leg, credit leg, SETTLED, outbox event. */
    method WriteAll(id: Id, req: Request, debit: Draft, credit: Draft, fault: Fault) returns (ok: bool)
      requires req.amount.Amount?
      modifies this`txns, this`entries, this`outbox
      ensures ok ==> !(3 <= fault <= 7)
      ensures ok ==> !KeyUsed(old(Rows()), req.key) && !IdUsed(old(Rows()), id)
                     && Storable(Stored(debit)) && Storable(Stored(credit))
      ensures !ok && fault == 0 ==>
        (KeyUsed(old(Rows()), req.key) || IdUsed(old(Rows()), id)
         || !Storable(Stored(debit)) || !Storable(Stored(credit)))
      ensures ok ==> Rows() == Append(old(Rows()), Tables([Header(id, req, Settled)],
                                                          [Stored(debit), Stored(credit)],
                                                          [SettledEvent(id, req)]))
    {
      hide KeyUsed, IdUsed, Storable, Stored, SettledEvent;
      ok := Create(Header(id, req, Pending), fault == 3);
      if !ok { return; }
      ok := CreateEntry(debit, fault == 4);
      if !ok { return; }
      ok := CreateEntry(credit, fault == 5);
      if !ok { return; }
      ghost var before := txns;
      ok := UpdateStatus(id, Settled, fault == 6);
      if !ok { return; }
      SettledLast(old(Rows()), before, txns, id, req);
      ok := InsertOutboxEvent(SettledEvent(id, req), fault == 7);
    }

    // ---------- Transaction bodies ----------

    method DepositInTx(id: Id, req: Request, fault: Fault) returns (error: Option<Error>)
      requires req.DepositRequest? && Acceptable(req)
      modifies this`txns, this`entries, this`outbox
      ensures error.None? ==> Apply(old(Rows()), Serve(id, req, 0, 0)) == Some(Rows())
      ensures error.Some? && fault == 0 ==> Apply(old(Rows()), Serve(id, req, 0, 0)) == None
      ensures error == None || error == Some(DatabaseError)
    {
      if fault == 1 { return Some(DatabaseError); }
      var currentBalance := GetCurrentBalance(req.account);
      var amount := req.amount.value;
      var newBalance := currentBalance as real + amount;
      assert !IsInternal(req.account) by { assert req.Accounts()[0] == req.account; }
      var ok := WriteAll(id, req, Draft(id, Deposit, GL_CASH, Debit, amount, 0.0, req.currency),
                         Draft(id, Deposit, req.account, Credit, amount, newBalance, req.currency), fault);
      RoundWhole(0);
      error := if ok then None else Some(DatabaseError);
    }

    method WithdrawInTx(id: Id, req: Request, fault: Fault) returns (error: Option<Error>)
      requires req.WithdrawalRequest? && Acceptable(req)
      modifies this`txns, this`entries, this`outbox
      ensures error.None? ==> Apply(old(Rows()), Serve(id, req, 0, 0)) == Some(Rows())
      ensures error.Some? && fault == 0 ==> Apply(old(Rows()), Serve(id, req, 0, 0)) == None
      ensures fault == 0 ==>
        (error == Some(InsufficientFunds) <==> Balance(old(entries), req.account) as real < req.amount.value)
      ensures error == None || error == Some(DatabaseError) || error == Some(InsufficientFunds)
    {
      if fault == 1 { return Some(DatabaseError); }
      var currentBalance := GetCurrentBalance(req.account);
      var amount := req.amount.value;
      if currentBalance as real < amount { return Some(InsufficientFunds); }
      var newBalance := currentBalance as real - amount;
      assert !IsInternal(req.account) by { assert req.Accounts()[0] == req.account; }
      var ok := WriteAll(id, req, Draft(id, Withdrawal, req.account, Debit, amount, newBalance, req.currency),
                         Draft(id, Withdrawal, GL_CASH, Credit, amount, 0.0, req.currency), fault);
      RoundWhole(0);
      error := if ok then None else Some(DatabaseError);
    }

    method TransferInTx(id: Id, req: Request, fault: Fault) returns (error: Option<Error>)
      requires req.TransferRequest? && Acceptable(req)
      modifies this`txns, this`entries, this`outbox
      ensures error.None? ==> Apply(old(Rows()), Serve(id, req, 0, 0)) == Some(Rows())
      ensures error.Some? && fault == 0 ==> Apply(old(Rows()), Serve(id, req, 0, 0)) == None
      ensures fault == 0 ==>
        (error == Some(InsufficientFunds) <==> Balance(old(entries), req.from) as real < req.amount.value)
      ensures error == None || error == Some(DatabaseError) || error == Some(InsufficientFunds)
    {
      var first, second := req.from, req.to;
      if LexOrder.Less(second, first) { first, second := second, first; }
      if fault == 1 { return Some(DatabaseError); }
      var firstBal := GetCurrentBalance(first);
      if fault == 2 { return Some(DatabaseError); }
      var secondBal := GetCurrentBalance(second);

      var sourceBalance, destBalance;
      if first == req.from {
        sourceBalance, destBalance := firstBal, secondBal;
      } else {
        sourceBalance, destBalance := secondBal, firstBal;
      }

      var amount := req.amount.value;
      if sourceBalance as real < amount { return Some(InsufficientFunds); }
      assert !IsInternal(req.from) && !IsInternal(req.to) by {
        assert req.Accounts()[0] == req.from && req.Accounts()[1] == req.to;
      }
      var ok := WriteAll(id, req,
                         Draft(id, Transfer, req.from, Debit, amount, sourceBalance as real - amount, req.currency),
                         Draft(id, Transfer, req.to, Credit, amount, destBalance as real + amount, req.currency),
                         fault);
      error := if ok then None else Some(DatabaseError);
    }

    /** RunInTx: commit if the body succeeds, otherwise put every table back. */
    method RunInTx(id: Id, req: Request, fault: Fault) returns (error: Option<Error>)
      requires Acceptable(req)
      modifies this`txns, this`entries, this`outbox
      ensures error.None? ==> Apply(old(Rows()), Serve(id, req, 0, 0)) == Some(Rows())
      ensures error.Some? ==> Rows() == old(Rows())
      ensures error.Some? && fault == 0 ==> Apply(old(Rows()), Serve(id, req, 0, 0)) == None
      ensures fault == 0 ==>
        (error == Some(InsufficientFunds) <==> !Covered(req, Balance(old(entries), req.Debited())))
      ensures error == None || error == Some(DatabaseError) || error == Some(InsufficientFunds)
    {
      var savedTxns, savedEntries, savedOutbox := txns, entries, outbox;
      match req {
        case DepositRequest(_, _, _, _) => error := DepositInTx(id, req, fault);
        case WithdrawalRequest(_, _, _, _) => error := WithdrawInTx(id, req, fault);
        case TransferRequest(_, _, _, _, _) => error := TransferInTx(id, req, fault);
      }
      if error.None? && fault == 8 { error := Some(DatabaseError); }
      if error.Some? { txns, entries, outbox := savedTxns, savedEntries, savedOutbox; }
    }

    // ---------- The operations ----------

    /** Each account named must exist and be active, checked in order. */
    method CheckAccounts(req: Request) returns (error: Option<Error>)
      ensures error == Unavailable(accounts, req.Accounts())
    {
      var names := req.Accounts();
      var i := 0;
      while i < |names|
        invariant 0 <= i <= |names|
        invariant Unavailable(accounts, names) == Unavailable(accounts, names[i..])
      {
        assert names[i..][0] == names[i] && names[i..][1..] == names[i + 1..];
        if names[i] !in accounts { return Some(AccountNotFound); }
        if !accounts[names[i]] { return Some(AccountNotActive); }
        i := i + 1;
      }
      error := None;
    }

    /** Deposit, Withdraw and Transfer: validate, look the key up, check the accounts, run the
        transaction, read the result back. */
    method Execute(id: Id, req: Request, fault: Fault) returns (outcome: Engine.Outcome)
      requires forall a <- accounts :: !IsInternal(a)
      modifies this`txns, this`entries, this`outbox
      // With no failure, the tables and the answer of the request carried out by itself.
      ensures fault == 0 ==>
        var alone := ByItself(old(Rows()), accounts, id, req);
        Rows() == alone.tables && outcome == alone.outcome
      // All or nothing, whatever fails; success is reported only with the key on record.
      ensures Rows() == old(Rows()) || Apply(old(Rows()), Serve(id, req, 0, 0)) == Some(Rows())
      ensures outcome.Responded? ==> KeyUsed(Rows(), req.key)
      // A request that is malformed, known, or on an account that is not available writes nothing.
      ensures Validate(req).Some? || KeyUsed(old(Rows()), req.key) || Unavailable(accounts, req.Accounts()).Some? ==>
        Rows() == old(Rows())
    {
      var invalid := Validate(req);
      if invalid.Some? { return Engine.Failed(invalid.value); }
      var existing := FindKey(txns, req.key);
      if existing.Some? {
        outcome := FetchResponse(existing.value.id, fault != 0);
        return;
      }
      var unavailable := CheckAccounts(req);
      if unavailable.Some? { return Engine.Failed(unavailable.value); }
      ghost var before := txns;
      var error := RunInTx(id, req, fault);
      if error.Some? { return Engine.Failed(error.value); }
      Appended(old(Rows()), id, req);
      FindIdLast(before, Header(id, req, Settled));
      assert Header(id, req, Settled) in txns;
      outcome := FetchResponse(id, fault == 9);
    }
  }

  /** Only the new header is settled. */
  lemma {:induction false} SettledLast(db: Tables, before: seq<Txn>, after: seq<Txn>, id: Id, req: Request)
    requires !IdUsed(db, id) && before == db.txns + [Header(id, req, Pending)] && |after| == |before|
    requires forall i | 0 <= i < |after| ::
               after[i] == if before[i].id == id then before[i].(status := Settled) else before[i]
    ensures after == db.txns + [Header(id, req, Settled)]
  {
    forall i | 0 <= i < |db.txns| ensures after[i] == db.txns[i] { assert db.txns[i] in db.txns; }
  }

  lemma {:induction false} Appended(db: Tables, id: Id, req: Request)
    requires Apply(db, Serve(id, req, 0, 0)).Some?
    ensures Apply(db, Serve(id, req, 0, 0)).value.txns == db.txns + [Header(id, req, Settled)]
    ensures forall t <- db.txns :: t.id != id
  {
    hide Acceptable, Covered, KeyUsed, Balance, DebitLeg, CreditLeg, Storable;
  }
}
