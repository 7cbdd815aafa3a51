/** A request run alone through the engine does, and answers, what the reference says. */
module RunAlone {
  import opened Common
  import opened Ledger
  import opened Engine
  import opened EngineInvariants
  import opened Reference
  import Deadlock
  import LedgerLaws
  import LexOrder
  import Serialisability

  /** `n` steps of client `c` lead from `s` to `t`. */
  predicate TakesTo(s: State, c: Id, n: nat, t: State)
    decreases n
  {
    if n == 0 then s == t else CanStep(s, c) && TakesTo(DoStep(s, c), c, n - 1, t)
  }

  /** Client `c` at one point of its work, nobody else holding anything. */
  function At(s: State, c: Id, cl: Client, locks: map<AccountId, Id>, keys: map<Key, Id>): State {
    s.(clients := s.clients[c := cl], locks := locks, keys := keys)
  }

  predicate OnlyMine<K>(m: map<K, Id>, c: Id) { forall k | k in m :: m[k] == c }

  function Idle(req: Request, pc: PC): Client { Client(req, pc, map[], None, [], []) }

  /** Client `c` is done, and holds nothing. */
  function Ended(s: State, c: Id, req: Request, result: Result): State {
    At(s.(db := result.tables), c, Idle(req, Done(result.outcome)), map[], map[])
  }

  /** The end is reached from here. */
  ghost predicate EndsAs(s: State, c: Id, req: Request, result: Result, from: State) {
    exists n: nat :: TakesTo(from, c, n, Ended(s, c, req, result))
  }

  lemma {:induction false} OneStepBefore(s: State, c: Id, req: Request, result: Result, from: State, next: State)
    requires CanStep(from, c) && DoStep(from, c) == next && EndsAs(s, c, req, result, next)
    ensures EndsAs(s, c, req, result, from)
  {
    hide CanStep, DoStep, Ended;
    var n: nat :| TakesTo(next, c, n, Ended(s, c, req, result));
    assert TakesTo(from, c, n + 1, Ended(s, c, req, result));
  }

  lemma {:induction false} AtTheEnd(s: State, c: Id, req: Request, result: Result)
    ensures EndsAs(s, c, req, result, Ended(s, c, req, result))
  {
    hide Ended;
    assert TakesTo(Ended(s, c, req, result), c, 0, Ended(s, c, req, result));
  }

  /** Rolling back gives up everything the client holds. */
  lemma {:induction false} RolledBack(s: State, c: Id, cl: Client, locks: map<AccountId, Id>, keys: map<Key, Id>, e: Error)
    requires OnlyMine(locks, c) && OnlyMine(keys, c)
    ensures Rollback(At(s, c, cl, locks, keys), c, cl, e) == Ended(s, c, cl.req, Result(s.db, Failed(e)))
  {
    assert Without(locks, c) == map[] && Without(keys, c) == map[];
  }

  lemma {:induction false} EndsByRollback(s: State, c: Id, cl: Client, locks: map<AccountId, Id>, keys: map<Key, Id>, e: Error)
    requires OnlyMine(locks, c) && OnlyMine(keys, c)
    requires CanStep(At(s, c, cl, locks, keys), c)
    requires DoStep(At(s, c, cl, locks, keys), c) == Rollback(At(s, c, cl, locks, keys), c, cl, e)
    ensures EndsAs(s, c, cl.req, Result(s.db, Failed(e)), At(s, c, cl, locks, keys))
  {
    hide CanStep, DoStep, Rollback, Ended, EndsAs;
    RolledBack(s, c, cl, locks, keys, e);
    AtTheEnd(s, c, cl.req, Result(s.db, Failed(e)));
    OneStepBefore(s, c, cl.req, Result(s.db, Failed(e)), At(s, c, cl, locks, keys),
                  Ended(s, c, cl.req, Result(s.db, Failed(e))));
  }

  // ---------- Reading the answer ----------

  lemma {:induction false} HeaderStep(s: State, c: Id, req: Request, id: Id)
    requires FindId(s.db.txns, id).Some?
    ensures var from := At(s, c, Idle(req, FetchingHeader(id)), map[], map[]);
            CanStep(from, c) && DoStep(from, c) == At(s, c, Idle(req, FetchingLegs(FindId(s.db.txns, id).value)), map[], map[])
  {
    hide FindId, LegsOf, Validate, LexOrder.Less;
  }

  lemma {:induction false} LegsStep(s: State, c: Id, req: Request, t: Txn)
    ensures var from := At(s, c, Idle(req, FetchingLegs(t)), map[], map[]);
            CanStep(from, c)
            && DoStep(from, c)
            == Ended(s, c, req, Result(s.db, Responded(Response(t, LegsOf(s.db.entries, t.id)))))
  {
    hide LegsOf, Validate, LexOrder.Less;
    assert s.(db := s.db) == s;
  }

  lemma {:induction false} FromFetching(s: State, c: Id, req: Request, id: Id)
    requires FindId(s.db.txns, id).Some?
    ensures EndsAs(s, c, req, Result(s.db, Known(s.db, id)), At(s, c, Idle(req, FetchingHeader(id)), map[], map[]))
  {
    hide EndsAs, FindId, LegsOf, CanStep, DoStep, At, Ended;
    var t, result := FindId(s.db.txns, id).value, Result(s.db, Known(s.db, id));
    AtTheEnd(s, c, req, result);
    LegsStep(s, c, req, t);
    OneStepBefore(s, c, req, result, At(s, c, Idle(req, FetchingLegs(t)), map[], map[]), Ended(s, c, req, result));
    HeaderStep(s, c, req, id);
    OneStepBefore(s, c, req, result, At(s, c, Idle(req, FetchingHeader(id)), map[], map[]),
                  At(s, c, Idle(req, FetchingLegs(t)), map[], map[]));
  }

  // ---------- Writing the rows ----------

  /** Committing leaves the client to read its answer, holding nothing. */
  lemma {:induction false} CommitStep(s: State, c: Id, cl: Client, locks: map<AccountId, Id>, keys: map<Key, Id>)
    requires OnlyMine(locks, c) && OnlyMine(keys, c) && WellFormed(cl.req) && cl.pc.Committing?
    ensures var from, next := At(s, c, cl, locks, keys), s.(db := Append(s.db, CommitRows(cl)));
            CanStep(from, c) && DoStep(from, c) == At(next, c, Idle(cl.req, FetchingHeader(c)), map[], map[])
  {
    hide Validate, CommitRows, Append;
    assert Without(locks, c) == map[] && Without(keys, c) == map[];
  }

  lemma {:induction false} CommittedIsKnown(db: Tables, c: Id, header: Txn, rows: Tables)
    requires !IdUsed(db, c) && header.id == c && rows.txns == [header]
    ensures Known(Append(db, rows), c) == Responded(Response(header, LegsOf(Append(db, rows).entries, c)))
    ensures FindId(Append(db, rows).txns, c).Some?
  {
    assert forall t <- db.txns :: t.id != c;
    FindIdLast(db.txns, header);
    hide LegsOf;
  }

  lemma {:induction false} FromCommitting(s: State, c: Id, cl: Client, locks: map<AccountId, Id>, keys: map<Key, Id>)
    requires OnlyMine(locks, c) && OnlyMine(keys, c) && !IdUsed(s.db, c) && WellFormed(cl.req)
    requires cl.pc.Committing? && cl.header == Some(Header(c, cl.req, Settled))
    ensures var after := Append(s.db, CommitRows(cl));
            EndsAs(s, c, cl.req, Result(after, Responded(Response(Header(c, cl.req, Settled), LegsOf(after.entries, c)))),
                   At(s, c, cl, locks, keys))
  {
    CommittedIsKnown(s.db, c, Header(c, cl.req, Settled), CommitRows(cl));
    CommitStep(s, c, cl, locks, keys);
    hide EndsAs, LegsOf, Validate, At, CanStep, DoStep, Append, CommitRows, IdUsed, OnlyMine, FindId, Known;
    var t := s.(db := Append(s.db, CommitRows(cl)));
    FromFetching(t, c, cl.req, c);
    var next, result := At(t, c, Idle(cl.req, FetchingHeader(c)), map[], map[]), Result(t.db, Known(t.db, c));
    SameEnd(s, t, c, cl.req, result, next);
    OneStepBefore(s, c, cl.req, result, At(s, c, cl, locks, keys), next);
  }

  /** The rows committed before do not matter to where a client ends. */
  lemma {:induction false} SameEnd(s: State, t: State, c: Id, req: Request, result: Result, from: State)
    requires t == s.(db := t.db) && EndsAs(t, c, req, result, from)
    ensures EndsAs(s, c, req, result, from)
  {
    assert Ended(s, c, req, result) == Ended(t, c, req, result);
  }

  /** One step takes client `c` from `cl` to `next`, and changes nothing but what it holds. */
  predicate Steps(s: State, c: Id, cl: Client, next: Client, locks: map<AccountId, Id>, keys: map<Key, Id>,
                  kept: map<Key, Id>) {
    CanStep(At(s, c, cl, locks, keys), c) && DoStep(At(s, c, cl, locks, keys), c) == At(s, c, next, locks, kept)
  }

  lemma {:induction false} SettleStep(s: State, c: Id, cl: Client, locks: map<AccountId, Id>, keys: map<Key, Id>)
    requires WellFormed(cl.req) && cl.pc.Settling? && cl.header == Some(Header(c, cl.req, Pending))
    ensures Steps(s, c, cl, cl.(pc := InsertingEvent, header := Some(Header(c, cl.req, Settled))), locks, keys, keys)
  {
    hide Validate;
  }

  lemma {:induction false} EventStep(s: State, c: Id, cl: Client, locks: map<AccountId, Id>, keys: map<Key, Id>)
    requires WellFormed(cl.req) && cl.pc.InsertingEvent? && cl.events == []
    ensures Steps(s, c, cl, cl.(pc := Committing, events := [SettledEvent(c, cl.req)]), locks, keys, keys)
  {
    hide Validate;
    assert [] + [SettledEvent(c, cl.req)] == [SettledEvent(c, cl.req)];
  }

  lemma {:induction false} DebitStep(s: State, c: Id, cl: Client, locks: map<AccountId, Id>, keys: map<Key, Id>)
    requires WellFormed(cl.req) && cl.pc.InsertingDebit? && cl.legs == []
    requires Storable(DebitLeg(c, cl.req, SeenBalance(cl, cl.req.Debited())))
    ensures Steps(s, c, cl, cl.(pc := InsertingCredit, legs := [DebitLeg(c, cl.req, SeenBalance(cl, cl.req.Debited()))]),
                  locks, keys, keys)
  {
    hide Validate, DebitLeg, Storable;
    assert forall leg: Entry :: [] + [leg] == [leg];
  }

  lemma {:induction false} CreditStep(s: State, c: Id, cl: Client, locks: map<AccountId, Id>, keys: map<Key, Id>)
    requires WellFormed(cl.req) && cl.pc.InsertingCredit? && |cl.legs| == 1
    requires Storable(CreditLeg(c, cl.req, SeenBalance(cl, cl.req.Credited())))
    ensures Steps(s, c, cl, cl.(pc := Settling, legs := [cl.legs[0], CreditLeg(c, cl.req, SeenBalance(cl, cl.req.Credited()))]),
                  locks, keys, keys)
  {
    hide Validate, CreditLeg, Storable;
    assert forall leg: Entry :: cl.legs + [leg] == [cl.legs[0], leg];
  }

  lemma {:induction false} FundsStep(s: State, c: Id, cl: Client, locks: map<AccountId, Id>, keys: map<Key, Id>)
    requires WellFormed(cl.req) && cl.pc.CheckingFunds? && Covered(cl.req, SeenBalance(cl, cl.req.Debited()))
    ensures Steps(s, c, cl, cl.(pc := InsertingHeader), locks, keys, keys)
  {
    hide Validate, Covered;
  }

  lemma {:induction false} HeaderInserted(s: State, c: Id, cl: Client, locks: map<AccountId, Id>)
    requires WellFormed(cl.req) && cl.pc.InsertingHeader? && !KeyUsed(s.db, cl.req.key)
    ensures Steps(s, c, cl, cl.(pc := InsertingDebit, header := Some(Header(c, cl.req, Pending))), locks,
                  map[], map[cl.req.key := c])
  {
    hide Validate, KeyUsed;
  }

  lemma {:induction false} StepBefore(s: State, c: Id, cl: Client, next: Client, locks: map<AccountId, Id>,
                                      keys: map<Key, Id>, kept: map<Key, Id>, result: Result)
    requires Steps(s, c, cl, next, locks, keys, kept) && EndsAs(s, c, cl.req, result, At(s, c, next, locks, kept))
    ensures EndsAs(s, c, cl.req, result, At(s, c, cl, locks, keys))
  {
    hide EndsAs, At, CanStep, DoStep;
    OneStepBefore(s, c, cl.req, result, At(s, c, cl, locks, keys), At(s, c, next, locks, kept));
  }

  /** From the settling of the header on. */
  lemma {:induction false} FromSettling(s: State, c: Id, cl: Client, locks: map<AccountId, Id>, keys: map<Key, Id>)
    requires OnlyMine(locks, c) && OnlyMine(keys, c) && !IdUsed(s.db, c) && WellFormed(cl.req)
    requires cl.pc.Settling? && cl.header == Some(Header(c, cl.req, Pending)) && cl.events == []
    ensures var after := Append(s.db, Tables([Header(c, cl.req, Settled)], cl.legs, [SettledEvent(c, cl.req)]));
            EndsAs(s, c, cl.req, Result(after, Responded(Response(Header(c, cl.req, Settled), LegsOf(after.entries, c)))),
                   At(s, c, cl, locks, keys))
  {
    hide EndsAs, LegsOf, Validate, Steps, At, OnlyMine, IdUsed, Append;
    var event, header := SettledEvent(c, cl.req), Header(c, cl.req, Settled);
    var settled := cl.(pc := InsertingEvent, header := Some(header));
    var ready := settled.(pc := Committing, events := [event]);
    FromCommitting(s, c, ready, locks, keys);
    var after := Append(s.db, CommitRows(ready));
    var result := Result(after, Responded(Response(header, LegsOf(after.entries, c))));
    EventStep(s, c, settled, locks, keys);
    StepBefore(s, c, settled, ready, locks, keys, keys, result);
    SettleStep(s, c, cl, locks, keys);
    StepBefore(s, c, cl, settled, locks, keys, keys, result);
  }

  /** What comes of the transaction once its header is written: all rows if both legs can be
      stored, and none otherwise. */
  function Written(s: State, c: Id, cl: Client): Result
    requires cl.req.amount.Amount?
  {
    var debit := DebitLeg(c, cl.req, SeenBalance(cl, cl.req.Debited()));
    var credit := CreditLeg(c, cl.req, SeenBalance(cl, cl.req.Credited()));
    var after := Append(s.db, Tables([Header(c, cl.req, Settled)], [debit, credit], [SettledEvent(c, cl.req)]));
    if Storable(debit) && Storable(credit)
    then Result(after, Responded(Response(Header(c, cl.req, Settled), LegsOf(after.entries, c))))
    else Result(s.db, Failed(DatabaseError))
  }

  lemma {:induction false} FromInsertingCredit(s: State, c: Id, cl: Client, locks: map<AccountId, Id>, keys: map<Key, Id>)
    requires OnlyMine(locks, c) && OnlyMine(keys, c) && !IdUsed(s.db, c) && WellFormed(cl.req)
    requires cl.pc.InsertingCredit? && cl.header == Some(Header(c, cl.req, Pending)) && cl.events == []
    requires cl.legs == [DebitLeg(c, cl.req, SeenBalance(cl, cl.req.Debited()))] && Storable(cl.legs[0])
    ensures EndsAs(s, c, cl.req, Written(s, c, cl), At(s, c, cl, locks, keys))
  {
    hide EndsAs, LegsOf, Validate, DebitLeg, CreditLeg, Storable, Append, Steps;
    var credit := CreditLeg(c, cl.req, SeenBalance(cl, cl.req.Credited()));
    if Storable(credit) {
      hide CanStep, DoStep, At, OnlyMine, IdUsed;
      var next := cl.(pc := Settling, legs := [cl.legs[0], credit]);
      FromSettling(s, c, next, locks, keys);
      CreditStep(s, c, cl, locks, keys);
      StepBefore(s, c, cl, next, locks, keys, keys, Written(s, c, cl));
    } else {
      EndsByRollback(s, c, cl, locks, keys, DatabaseError);
    }
  }

  lemma {:induction false} FromInsertingDebit(s: State, c: Id, cl: Client, locks: map<AccountId, Id>, keys: map<Key, Id>)
    requires OnlyMine(locks, c) && OnlyMine(keys, c) && !IdUsed(s.db, c) && WellFormed(cl.req)
    requires cl.pc.InsertingDebit? && cl.header == Some(Header(c, cl.req, Pending)) && cl.legs == [] && cl.events == []
    ensures EndsAs(s, c, cl.req, Written(s, c, cl), At(s, c, cl, locks, keys))
  {
    hide EndsAs, LegsOf, Validate, DebitLeg, CreditLeg, Storable, Append, Steps;
    var debit := DebitLeg(c, cl.req, SeenBalance(cl, cl.req.Debited()));
    if Storable(debit) {
      var next := cl.(pc := InsertingCredit, legs := [debit]);
      hide CanStep, DoStep, At, OnlyMine, IdUsed;
      FromInsertingCredit(s, c, next, locks, keys);
      DebitStep(s, c, cl, locks, keys);
      StepBefore(s, c, cl, next, locks, keys, keys, Written(s, c, cl));
    } else {
      EndsByRollback(s, c, cl, locks, keys, DatabaseError);
    }
  }

  lemma {:induction false} FromInsertingHeader(s: State, c: Id, cl: Client, locks: map<AccountId, Id>)
    requires OnlyMine(locks, c) && !IdUsed(s.db, c) && !KeyUsed(s.db, cl.req.key) && WellFormed(cl.req)
    requires cl.pc.InsertingHeader? && cl.header == None && cl.legs == [] && cl.events == []
    ensures EndsAs(s, c, cl.req, Written(s, c, cl), At(s, c, cl, locks, map[]))
  {
    hide EndsAs, LegsOf, Validate, DebitLeg, CreditLeg, Storable, Append, KeyUsed, Steps, CanStep, DoStep, At, IdUsed;
    var keys: map<Key, Id> := map[cl.req.key := c];
    var next := cl.(pc := InsertingDebit, header := Some(Header(c, cl.req, Pending)));
    FromInsertingDebit(s, c, next, locks, keys);
    HeaderInserted(s, c, cl, locks);
    StepBefore(s, c, cl, next, locks, map[], keys, Written(s, c, cl));
  }

  // ---------- Locking and checking ----------

  /** The client has read the current balance of each of its accounts in `names`. */
  predicate ReadCurrent(s: State, cl: Client, names: seq<AccountId>) {
    forall a <- names :: a in cl.seen && cl.seen[a].balance == Balance(s.db.entries, a)
  }

  lemma {:induction false} CustomersRead(s: State, cl: Client)
    requires Acceptable(cl.req) && ReadCurrent(s, cl, cl.req.Accounts())
    ensures cl.req.Debited() != GL_CASH ==> SeenBalance(cl, cl.req.Debited()) == Balance(s.db.entries, cl.req.Debited())
    ensures cl.req.Credited() != GL_CASH ==> SeenBalance(cl, cl.req.Credited()) == Balance(s.db.entries, cl.req.Credited())
  {
    hide Balance, Validate;
    match cl.req
    case DepositRequest(a, _, _, _) => assert cl.req.Accounts()[0] == a;
    case WithdrawalRequest(a, _, _, _) => assert cl.req.Accounts()[0] == a;
    case TransferRequest(a, b, _, _, _) => assert cl.req.Accounts()[0] == a && cl.req.Accounts()[1] == b;
  }

  /** With current balances the legs are the reference's. */
  lemma {:induction false} CurrentLegs(s: State, c: Id, cl: Client)
    requires Acceptable(cl.req) && ReadCurrent(s, cl, cl.req.Accounts())
    ensures var debited, credited := cl.req.Debited(), cl.req.Credited();
            && DebitLeg(c, cl.req, SeenBalance(cl, debited)) == DebitLeg(c, cl.req, Balance(s.db.entries, debited))
            && CreditLeg(c, cl.req, SeenBalance(cl, credited)) == CreditLeg(c, cl.req, Balance(s.db.entries, credited))
            && (Covered(cl.req, SeenBalance(cl, debited)) <==> Covered(cl.req, Balance(s.db.entries, debited)))
  {
    var debited, credited := cl.req.Debited(), cl.req.Credited();
    CustomersRead(s, cl);
    Serialisability.CashOnlyFundsDeposits(cl.req);
    hide Balance, SeenBalance, Validate, DebitLeg, CreditLeg;
    Serialisability.LegsDependOnCustomersOnly(c, cl.req, SeenBalance(cl, debited), Balance(s.db.entries, debited));
    Serialisability.LegsDependOnCustomersOnly(c, cl.req, SeenBalance(cl, credited), Balance(s.db.entries, credited));
  }

  lemma {:induction false} WrittenIsCarried(s: State, c: Id, cl: Client)
    requires Acceptable(cl.req) && ReadCurrent(s, cl, cl.req.Accounts()) && !KeyUsed(s.db, cl.req.key) && !IdUsed(s.db, c)
    ensures Carried(s.db, c, cl.req)
         == if Covered(cl.req, SeenBalance(cl, cl.req.Debited())) then Written(s, c, cl)
            else Result(s.db, Failed(InsufficientFunds))
  {
    CurrentLegs(s, c, cl);
    hide Balance, SeenBalance, Validate, DebitLeg, CreditLeg, Covered, Storable, KeyUsed, IdUsed, ReadCurrent, LegsOf, Append;
    var rows := ServedRows(c, cl.req, Balance(s.db.entries, cl.req.Debited()), Balance(s.db.entries, cl.req.Credited()));
    assert rows.entries[0] in rows.entries && rows.entries[1] in rows.entries;
    assert (forall e <- rows.entries :: Storable(e)) <==> Storable(rows.entries[0]) && Storable(rows.entries[1]);
  }

  lemma {:induction false} FromCheckingFunds(s: State, c: Id, cl: Client, locks: map<AccountId, Id>)
    requires OnlyMine(locks, c) && !IdUsed(s.db, c) && !KeyUsed(s.db, cl.req.key) && Acceptable(cl.req)
    requires cl.pc.CheckingFunds? && cl.header == None && cl.legs == [] && cl.events == []
    requires ReadCurrent(s, cl, cl.req.Accounts())
    ensures EndsAs(s, c, cl.req, Carried(s.db, c, cl.req), At(s, c, cl, locks, map[]))
  {
    WrittenIsCarried(s, c, cl);
    hide EndsAs, Validate, Covered, Written, KeyUsed, IdUsed, Carried, ReadCurrent, Steps;
    if Covered(cl.req, SeenBalance(cl, cl.req.Debited())) {
      hide CanStep, DoStep, At;
      var next := cl.(pc := InsertingHeader);
      FromInsertingHeader(s, c, next, locks);
      SameWritten(s, c, cl, next);
      FundsStep(s, c, cl, locks, map[]);
      StepBefore(s, c, cl, next, locks, map[], map[], Written(s, c, cl));
    } else {
      assert OnlyMine<Key>(map[], c);
      EndsByRollback(s, c, cl, locks, map[], InsufficientFunds);
    }
  }

  lemma {:induction false} SameWritten(s: State, c: Id, cl: Client, other: Client)
    requires cl.req.amount.Amount? && other.req == cl.req && other.seen == cl.seen
    ensures Written(s, c, cl) == Written(s, c, other)
  {
    hide LegsOf, DebitLeg, CreditLeg, Storable, Append;
  }

  /** The accounts of a request in locking order are its accounts. */
  lemma {:induction false} SameAccounts(req: Request)
    requires WellFormed(req)
    ensures forall a :: a in req.LockOrder() <==> a in req.Accounts()
    ensures |req.LockOrder()| == |req.Accounts()| && 1 <= |req.Accounts()| <= 2
    ensures |req.LockOrder()| == 2 ==> req.LockOrder()[0] != req.LockOrder()[1]
  {
    hide LexOrder.Less;
    if req.TransferRequest? {
      assert forall a :: a in [req.from, req.to] <==> a == req.from || a == req.to;
      assert forall a :: a in [req.to, req.from] <==> a == req.from || a == req.to;
    }
  }

  lemma {:induction false} AllRead(s: State, cl: Client)
    requires WellFormed(cl.req) && ReadCurrent(s, cl, cl.req.LockOrder())
    ensures ReadCurrent(s, cl, cl.req.Accounts())
  {
    SameAccounts(cl.req);
    hide Validate, Balance;
  }

  /** The client after grant number `i`. */
  function Granted(s: State, cl: Client, i: nat): Client
    requires i < |cl.req.LockOrder()|
  {
    var a := cl.req.LockOrder()[i];
    cl.(seen := cl.seen[a := Read(Balance(s.db.entries, a), |s.db.entries|)],
        pc := if i + 1 < |cl.req.LockOrder()| then Locking(i + 1) else CheckingFunds)
  }

  lemma {:induction false} GrantStep(s: State, c: Id, cl: Client, i: nat, locks: map<AccountId, Id>)
    requires Acceptable(cl.req) && cl.pc == Locking(i) && i < |cl.req.LockOrder()| && cl.req.LockOrder()[i] !in locks
    ensures var from, to := At(s, c, cl, locks, map[]), At(s, c, Granted(s, cl, i), locks[cl.req.LockOrder()[i] := c], map[]);
            CanStep(from, c) && DoStep(from, c) == to
  {
    hide Validate, LexOrder.Less, Balance;
    var from, to := At(s, c, cl, locks, map[]), At(s, c, Granted(s, cl, i), locks[cl.req.LockOrder()[i] := c], map[]);
    assert CanStep(from, c) && DoStep(from, c).clients == to.clients && DoStep(from, c).locks == to.locks;
  }

  /** Grant number `i`: the account is free, since only the accounts before it are locked. */
  lemma {:induction false} FromLocking(s: State, c: Id, cl: Client, i: nat, locks: map<AccountId, Id>)
    requires OnlyMine(locks, c) && !IdUsed(s.db, c) && !KeyUsed(s.db, cl.req.key) && Acceptable(cl.req)
    requires cl.pc == Locking(i) && i < |cl.req.LockOrder()| && cl.header == None && cl.legs == [] && cl.events == []
    requires ReadCurrent(s, cl, cl.req.LockOrder()[..i]) && (forall a | a in locks :: a in cl.req.LockOrder()[..i])
    ensures EndsAs(s, c, cl.req, Carried(s.db, c, cl.req), At(s, c, cl, locks, map[]))
    decreases |cl.req.LockOrder()| - i
  {
    hide EndsAs, Validate, LexOrder.Less, KeyUsed, IdUsed, Carried, Balance, CanStep, DoStep, At;
    SameAccounts(cl.req);
    var order := cl.req.LockOrder();
    var a, next := order[i], Granted(s, cl, i);
    var held := locks[a := c];
    assert order[..i + 1] == order[..i] + [a];
    assert a !in locks;
    assert ReadCurrent(s, next, order[..i + 1]);
    hide ReadCurrent;
    if i + 1 < |order| {
      FromLocking(s, c, next, i + 1, held);
    } else {
      assert order[..i + 1] == order;
      AllRead(s, next);
      FromCheckingFunds(s, c, next, held);
    }
    GrantStep(s, c, cl, i, locks);
    OneStepBefore(s, c, cl.req, Carried(s.db, c, cl.req), At(s, c, cl, locks, map[]), At(s, c, next, held, map[]));
  }

  /** The accounts before number `i` have passed the status check. */
  predicate Passed(s: State, names: seq<AccountId>, i: nat)
    requires i <= |names|
  {
    forall j | 0 <= j < i :: names[j] in s.accounts && s.accounts[names[j]]
  }

  lemma {:induction false} PassedSoFar(s: State, names: seq<AccountId>, i: nat)
    requires i <= |names| && Passed(s, names, i)
    ensures Unavailable(s.accounts, names) == Unavailable(s.accounts, names[i..])
  {
    if names != [] && i > 0 {
      assert names[1..][i - 1..] == names[i..];
      assert forall j | 0 <= j < i - 1 :: names[1..][j] == names[j + 1];
      PassedSoFar(s, names[1..], i - 1);
    }
  }

  /** What comes of a request with a new key, from the status checks on. */
  function Checked(s: State, c: Id, req: Request): Result
    requires req.amount.Amount?
  {
    if Unavailable(s.accounts, req.Accounts()).Some? then Result(s.db, Failed(Unavailable(s.accounts, req.Accounts()).value))
    else Carried(s.db, c, req)
  }

  lemma {:induction false} FromCheckingStatus(s: State, c: Id, req: Request, i: nat)
    requires !IdUsed(s.db, c) && !KeyUsed(s.db, req.key) && WellFormed(req) && forall a <- s.accounts :: !IsInternal(a)
    requires i < |req.Accounts()| && Passed(s, req.Accounts(), i)
    ensures EndsAs(s, c, req, Checked(s, c, req), At(s, c, Idle(req, CheckingStatus(i)), map[], map[]))
    decreases |req.Accounts()| - i
  {
    hide EndsAs, Validate, LexOrder.Less, KeyUsed, IdUsed, Carried, IsInternal;
    SameAccounts(req);
    var names, from := req.Accounts(), At(s, c, Idle(req, CheckingStatus(i)), map[], map[]);
    PassedSoFar(s, names, i);
    assert names[i..][0] == names[i];
    assert OnlyMine<Key>(map[], c) && OnlyMine<AccountId>(map[], c);
    if names[i] !in s.accounts {
      EndsByRollback(s, c, Idle(req, CheckingStatus(i)), map[], map[], AccountNotFound);
    } else if !s.accounts[names[i]] {
      EndsByRollback(s, c, Idle(req, CheckingStatus(i)), map[], map[], AccountNotActive);
    } else {
      var pc := if i + 1 < |names| then CheckingStatus(i + 1) else Locking(0);
      if i + 1 < |names| { FromCheckingStatus(s, c, req, i + 1); } else { AllPassed(s, c, req); }
      assert CanStep(from, c) && DoStep(from, c).clients == At(s, c, Idle(req, pc), map[], map[]).clients;
      OneStepBefore(s, c, req, Checked(s, c, req), from, At(s, c, Idle(req, pc), map[], map[]));
    }
  }

  lemma {:induction false} AllPassed(s: State, c: Id, req: Request)
    requires !IdUsed(s.db, c) && !KeyUsed(s.db, req.key) && WellFormed(req) && forall a <- s.accounts :: !IsInternal(a)
    requires Passed(s, req.Accounts(), |req.Accounts()|)
    ensures EndsAs(s, c, req, Checked(s, c, req), At(s, c, Idle(req, Locking(0)), map[], map[]))
  {
    hide EndsAs, Validate, LexOrder.Less, KeyUsed, IdUsed, Carried, IsInternal;
    SameAccounts(req);
    var names := req.Accounts();
    forall a | a in names ensures a in s.accounts && s.accounts[a] {
      var j :| 0 <= j < |names| && names[j] == a;
    }
    assert Acceptable(req);
    FromLocking(s, c, Idle(req, Locking(0)), 0, map[]);
  }

  lemma {:induction false} FromCheckingKey(s: State, c: Id, req: Request)
    requires !IdUsed(s.db, c) && WellFormed(req) && forall a <- s.accounts :: !IsInternal(a)
    ensures var known := FindKey(s.db.txns, req.key);
            EndsAs(s, c, req, if known.Some? then Result(s.db, Known(s.db, known.value.id)) else Checked(s, c, req),
                   At(s, c, Idle(req, CheckingKey), map[], map[]))
  {
    hide EndsAs, Validate, LexOrder.Less, Checked, IsInternal, LegsOf, IdUsed;
    SameAccounts(req);
    var known, from := FindKey(s.db.txns, req.key), At(s, c, Idle(req, CheckingKey), map[], map[]);
    hide FindKey;
    var pc := if known.Some? then FetchingHeader(known.value.id) else CheckingStatus(0);
    var result := if known.Some? then Result(s.db, Known(s.db, known.value.id)) else Checked(s, c, req);
    if known.Some? {
      hide FindId;
      FromFetching(s, c, req, known.value.id);
    } else {
      FromCheckingStatus(s, c, req, 0);
    }
    hide FindId, Known, KeyUsed;
    assert CanStep(from, c) && DoStep(from, c).clients == At(s, c, Idle(req, pc), map[], map[]).clients;
    OneStepBefore(s, c, req, result, from, At(s, c, Idle(req, pc), map[], map[]));
  }

  lemma {:induction false} FromTheStart(s: State, c: Id, req: Request)
    requires !IdUsed(s.db, c) && forall a <- s.accounts :: !IsInternal(a)
    ensures EndsAs(s, c, req, ByItself(s.db, s.accounts, c, req), At(s, c, Idle(req, Validating), map[], map[]))
  {
    hide EndsAs, Validate, IsInternal, IdUsed, FindKey, Known, Carried;
    var from := At(s, c, Idle(req, Validating), map[], map[]);
    assert OnlyMine<Key>(map[], c) && OnlyMine<AccountId>(map[], c);
    if Validate(req).Some? {
      EndsByRollback(s, c, Idle(req, Validating), map[], map[], Validate(req).value);
    } else {
      FromCheckingKey(s, c, req);
      var next := At(s, c, Idle(req, CheckingKey), map[], map[]);
      assert CanStep(from, c) && DoStep(from, c).clients == next.clients;
      OneStepBefore(s, c, req, ByItself(s.db, s.accounts, c, req), from, next);
    }
  }

  // ---------- Whole runs ----------

  predicate OnlyBy(acts: seq<Action>, c: Id) { forall act <- acts :: act == Step(c) }

  lemma {:induction false} RunTakes(s: State, acts: seq<Action>, c: Id)
    requires IsRun(s, acts) && OnlyBy(acts, c)
    ensures TakesTo(s, c, |acts|, Run(s, acts))
    decreases |acts|
  {
    hide CanStep, DoStep;
    if acts != [] {
      assert acts[0] in acts && forall act <- acts[1..] :: act in acts;
      assert OnlyBy(acts[1..], c);
      RunTakes(Next(s, acts[0]), acts[1..], c);
    }
  }

  lemma {:induction false} TakesIsRun(s: State, c: Id, n: nat, t: State) returns (acts: seq<Action>)
    requires TakesTo(s, c, n, t)
    ensures IsRun(s, acts) && OnlyBy(acts, c) && Run(s, acts) == t
    decreases n
  {
    hide CanStep, DoStep;
    if n == 0 {
      acts := [];
    } else {
      var rest := TakesIsRun(DoStep(s, c), c, n - 1, t);
      acts := [Step(c)] + rest;
      assert acts[0] == Step(c) && acts[1..] == rest && Next(s, acts[0]) == DoStep(s, c);
    }
  }

  /** A client has one way to its end. */
  lemma {:induction false} OneEnd(s: State, c: Id, n: nat, t: State, m: nat, u: State)
    requires TakesTo(s, c, n, t) && TakesTo(s, c, m, u)
    requires c in t.clients && t.clients[c].pc.Done? && c in u.clients && u.clients[c].pc.Done?
    ensures t == u
    decreases n
  {
    hide DoStep;
    if n > 0 && m > 0 {
      assert CanStep(s, c) && TakesTo(DoStep(s, c), c, n - 1, t) && TakesTo(DoStep(s, c), c, m - 1, u);
      OneEnd(DoStep(s, c), c, n - 1, t, m - 1, u);
    }
  }

  /** In any reachable state in which nobody holds a lock or a key, a request run alone to its
      end leaves the tables and gives the answer of the reference, and leaves nothing held. */
  lemma {:induction false} AloneIsTheReference(start: State, before: seq<Action>, c: Id, req: Request, acts: seq<Action>)
    requires Init(start) && IsRun(start, before) && Run(start, before).locks == map[] && Run(start, before).keys == map[]
    requires Enabled(Run(start, before), Arrive(c, req))
    requires var t := Next(Run(start, before), Arrive(c, req));
             && IsRun(t, acts) && OnlyBy(acts, c)
             && c in Run(t, acts).clients && Run(t, acts).clients[c].pc.Done?
    ensures var s := Run(start, before);
            var alone, end := ByItself(s.db, s.accounts, c, req), Run(Next(s, Arrive(c, req)), acts);
            && end.db == alone.tables && end.clients[c].pc.outcome == alone.outcome
            && end.locks == map[] && end.keys == map[] && end.accounts == s.accounts
            && forall d | d in s.clients :: d in end.clients && end.clients[d] == s.clients[d]
  {
    var s := Run(start, before);
    var t := Next(s, Arrive(c, req));
    InitOk(start);
    RunKeeps(start, before);
    FromTheStart(s, c, req);
    assert t == At(s, c, Idle(req, Validating), map[], map[]);
    hide Inv, ByItself, CanStep, IsRun, Run;
    var result := ByItself(s.db, s.accounts, c, req);
    var n: nat :| TakesTo(t, c, n, Ended(s, c, req, result));
    RunTakes(t, acts, c);
    OneEnd(t, c, |acts|, Run(t, acts), n, Ended(s, c, req, result));
  }

  /** And it can be run to its end. */
  lemma {:induction false} AloneEnds(start: State, before: seq<Action>, c: Id, req: Request) returns (acts: seq<Action>)
    requires Init(start) && IsRun(start, before) && Run(start, before).locks == map[] && Run(start, before).keys == map[]
    requires Enabled(Run(start, before), Arrive(c, req))
    ensures var t := Next(Run(start, before), Arrive(c, req));
            && IsRun(t, acts) && OnlyBy(acts, c)
            && c in Run(t, acts).clients && Run(t, acts).clients[c].pc.Done?
  {
    var s := Run(start, before);
    var t := Next(s, Arrive(c, req));
    InitOk(start);
    RunKeeps(start, before);
    FromTheStart(s, c, req);
    assert t == At(s, c, Idle(req, Validating), map[], map[]);
    hide Inv, ByItself, CanStep, IsRun, Run;
    var result := ByItself(s.db, s.accounts, c, req);
    var n: nat :| TakesTo(t, c, n, Ended(s, c, req, result));
    acts := TakesIsRun(t, c, n, Ended(s, c, req, result));
  }
}
