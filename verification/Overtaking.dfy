/** Exactly when interleaved requests leave what a serial execution would leave. */
module Overtaking {
  import opened Common
  import opened Decimals
  import opened Ledger
  import opened Engine
  import opened EngineInvariants
  import opened LedgerLaws
  import LexOrder
  import Serialisability

  // ---------- Exactly when a run is serial ----------

  /** No entry has reached the client's accounts since it locked them. */
  predicate UntouchedSinceLock(s: State, cl: Client) {
    forall a | a in cl.seen :: Serialisability.Untouched(s.db.entries, cl.seen[a].rows, a)
  }

  /** A committing client has read its customer accounts and nothing else. */
  lemma {:induction false} SeenAreCustomers(c: Id, cl: Client, es: seq<Entry>)
    requires ShapeOk(c, cl) && ReadsOk(es, cl) && cl.pc.Committing?
    ensures forall a :: a in cl.seen <==> a != GL_CASH && (a == cl.req.Debited() || a == cl.req.Credited())
  {
    hide WritesOk, Covered, ReadOk, Validate, LexOrder.Less;
    var order := cl.req.LockOrder();
    assert Held(cl) == order;
    assert forall a <- cl.req.Accounts() :: !IsInternal(a);
    match cl.req
    case DepositRequest(a, _, _, _) => assert cl.req.Accounts()[0] == a;
    case WithdrawalRequest(a, _, _, _) => assert cl.req.Accounts()[0] == a;
    case TransferRequest(a, b, _, _, _) =>
      assert cl.req.Accounts()[0] == a && cl.req.Accounts()[1] == b;
      assert a in cl.req.Accounts() && b in cl.req.Accounts();
      assert cl.req.Debited() == a && cl.req.Credited() == b && a != GL_CASH && b != GL_CASH;
      assert order == [a, b] || order == [b, a];
      assert forall x :: x in cl.seen <==> x in order;
      assert forall x :: x in order <==> x == a || x == b;
  }

  /** A commit records no lag exactly if no entry has reached its accounts since they were
      locked. */
  lemma {:induction false} LagsZeroIff(s: State, c: Id)
    requires Inv(s) && CanStep(s, c) && s.clients[c].pc.Committing?
    ensures |Committed(s, Step(c))| == 1
    ensures Committed(s, Step(c))[0].Prompt() <==> UntouchedSinceLock(s, s.clients[c])
  {
    var cl := s.clients[c];
    assert ShapeOk(c, cl) && ReadsOk(s.db.entries, cl) by { assert ClientOk(s, c, cl); }
    hide Inv, ShapeOk, ReadsOk, Serialisability.Untouched, Balance, Lag;
    SeenAreCustomers(c, cl, s.db.entries);
    LagZeroIff(s, c, cl.req.Debited());
    LagZeroIff(s, c, cl.req.Credited());
  }

  lemma {:induction false} LagZeroIff(s: State, c: Id, a: AccountId)
    requires Inv(s) && c in s.clients
    ensures Lag(s, s.clients[c], a) == 0 <==>
              (a in s.clients[c].seen ==> Serialisability.Untouched(s.db.entries, s.clients[c].seen[a].rows, a))
  {
    hide Inv, Serialisability.Untouched, Balance;
    Serialisability.LagIsInterestSince(s, c, a);
  }

  /** Every commit of the run finds its accounts as it locked them. */
  predicate NoneOvertaken(s: State, acts: seq<Action>)
    requires IsRun(s, acts)
    decreases |acts|
  {
    acts == [] ||
    ((acts[0].Step? && s.clients[acts[0].c].pc.Committing? ==> UntouchedSinceLock(s, s.clients[acts[0].c]))
     && NoneOvertaken(Next(s, acts[0]), acts[1..]))
  }

  lemma {:induction false} CommittedPromptIff(s: State, act: Action)
    requires Inv(s) && Enabled(s, act)
    ensures (forall op <- Committed(s, act) :: op.Prompt())
       <==> (act.Step? && s.clients[act.c].pc.Committing? ==> UntouchedSinceLock(s, s.clients[act.c]))
  {
    if act.Step? && s.clients[act.c].pc.Committing? {
      LagsZeroIff(s, act.c);
      hide Inv, Committed, UntouchedSinceLock;
      assert Committed(s, act)[0] in Committed(s, act);
    }
  }

  lemma {:induction false} AllPromptIff(s: State, acts: seq<Action>)
    requires Inv(s) && IsRun(s, acts)
    ensures (forall op <- History(s, acts) :: op.Prompt()) <==> NoneOvertaken(s, acts)
    decreases |acts|
  {
    hide Inv, Next, Enabled, Committed, UntouchedSinceLock;
    if acts != [] {
      NextKeeps(s, acts[0]);
      CommittedPromptIff(s, acts[0]);
      AllPromptIff(Next(s, acts[0]), acts[1..]);
      var now, later := Committed(s, acts[0]), History(Next(s, acts[0]), acts[1..]);
      assert forall op :: op in History(s, acts) <==> op in now || op in later;
    }
  }

  // ---------- Served alone ----------

  /** The operation as it would be executed alone: it sees the ledger itself. */
  function Alone(op: Op): Op { if op.Serve? then Serve(op.id, op.req, 0, 0) else op }

  function AllAlone(ops: seq<Op>): seq<Op> {
    if ops == [] then [] else [Alone(ops[0])] + AllAlone(ops[1..])
  }

  lemma {:induction false} PromptIsAlone(ops: seq<Op>)
    requires forall op <- ops :: op.Prompt()
    ensures AllAlone(ops) == ops
  {
    if ops != [] {
      assert ops[0] in ops;
      PromptIsAlone(ops[1..]);
    }
  }

  /** Only customer accounts are locked, so only they can lag. */
  predicate LagsOnCustomers(op: Op) {
    op.Serve? ==>
      && (IsInternal(op.req.Debited()) ==> op.debitLag == 0)
      && (IsInternal(op.req.Credited()) ==> op.creditLag == 0)
  }

  lemma {:induction false} InternalNeverLags(s: State, c: Id, a: AccountId)
    requires Inv(s) && c in s.clients && IsInternal(a)
    ensures Lag(s, s.clients[c], a) == 0
  {
    if a in s.clients[c].seen { Serialisability.ReadAccountsAreLocked(s, c, a); }
  }

  lemma {:induction false} CommittedLags(s: State, act: Action)
    requires Inv(s) && Enabled(s, act)
    ensures forall op <- Committed(s, act) :: LagsOnCustomers(op)
  {
    if act.Step? && s.clients[act.c].pc.Committing? {
      var cl := s.clients[act.c];
      if IsInternal(cl.req.Debited()) { InternalNeverLags(s, act.c, cl.req.Debited()); }
      if IsInternal(cl.req.Credited()) { InternalNeverLags(s, act.c, cl.req.Credited()); }
    }
    hide Inv, Lag, IsInternal;
  }

  lemma {:induction false} HistoryLags(s: State, acts: seq<Action>)
    requires Inv(s) && IsRun(s, acts)
    ensures forall op <- History(s, acts) :: LagsOnCustomers(op)
    decreases |acts|
  {
    hide Inv, Next, Enabled, Committed, LagsOnCustomers;
    if acts != [] {
      NextKeeps(s, acts[0]);
      CommittedLags(s, acts[0]);
      HistoryLags(Next(s, acts[0]), acts[1..]);
    }
  }

  /** A lag shows in the rows written. */
  lemma {:induction false} LagShowsInRows(id: Id, req: Request, debit: int, credit: int, debitLag: nat, creditLag: nat)
    requires Acceptable(req)
    requires IsInternal(req.Debited()) ==> debitLag == 0
    requires IsInternal(req.Credited()) ==> creditLag == 0
    requires ServedRows(id, req, debit - debitLag, credit - creditLag).entries == ServedRows(id, req, debit, credit).entries
    ensures debitLag == 0 && creditLag == 0
  {
    var late, alone := ServedRows(id, req, debit - debitLag, credit - creditLag), ServedRows(id, req, debit, credit);
    assert late.entries[0].running == alone.entries[0].running && late.entries[1].running == alone.entries[1].running;
    hide Round, Validate;
    if !IsInternal(req.Debited()) { RoundShift(debit as real - req.amount.value, debitLag); }
    if !IsInternal(req.Credited()) { RoundShift(credit as real + req.amount.value, creditLag); }
  }

  lemma {:induction false} SameTail(es: seq<Entry>, some: seq<Entry>, others: seq<Entry>)
    requires es + some == es + others
    ensures some == others
  {
    assert some == (es + some)[|es|..] && others == (es + others)[|es|..];
  }

  lemma {:induction false} SameAppend(db: Tables, more: Tables, others: Tables)
    requires Append(db, more) == Append(db, others)
    ensures more.entries == others.entries
  {
    SameTail(db.entries, more.entries, others.entries);
  }

  /** The same tables are reached alone only with no lag. */
  lemma {:induction false} SameServedNoLag(db: Tables, id: Id, req: Request, debitLag: nat, creditLag: nat)
    requires Apply(db, Serve(id, req, debitLag, creditLag)).Some?
    requires Apply(db, Serve(id, req, 0, 0)) == Apply(db, Serve(id, req, debitLag, creditLag))
    requires IsInternal(req.Debited()) ==> debitLag == 0
    requires IsInternal(req.Credited()) ==> creditLag == 0
    ensures debitLag == 0 && creditLag == 0
  {
    hide Apply, Append, Validate, Covered, IdUsed, Balance, IsInternal, ServedRows;
    ServeFacts(db, id, req, debitLag, creditLag);
    ServeFacts(db, id, req, 0, 0);
    var debit, credit := Balance(db.entries, req.Debited()), Balance(db.entries, req.Credited());
    SameAppend(db, ServedRows(id, req, debit - debitLag, credit - creditLag), ServedRows(id, req, debit, credit));
    LagShowsInRows(id, req, debit, credit, debitLag, creditLag);
  }

  lemma {:induction false} SameTablesNoLag(db: Tables, op: Op)
    requires Apply(db, op).Some? && Apply(db, Alone(op)) == Apply(db, op) && LagsOnCustomers(op)
    ensures op.Prompt()
  {
    hide Apply, IsInternal;
    if op.Serve? { SameServedNoLag(db, op.id, op.req, op.debitLag, op.creditLag); }
  }

  /** Tables of the same size that both grow into the same tables are the same. */
  lemma {:induction false} SamePrefix(x: Tables, y: Tables, after: Tables)
    requires Extends(x, after) && Extends(y, after)
    requires |x.txns| == |y.txns| && |x.entries| == |y.entries| && |x.outbox| == |y.outbox|
    ensures x == y
  {
    assert x.txns == after.txns[..|x.txns|] == y.txns;
    assert x.entries == after.entries[..|x.entries|] == y.entries;
    assert x.outbox == after.outbox[..|x.outbox|] == y.outbox;
  }

  lemma {:induction false} SameSize(db: Tables, op: Op)
    requires Apply(db, op).Some? && Apply(db, Alone(op)).Some?
    ensures var x, y := Apply(db, op).value, Apply(db, Alone(op)).value;
            |x.txns| == |y.txns| && |x.entries| == |y.entries| && |x.outbox| == |y.outbox|
  {
    if op.Serve? {
      hide Apply, Acceptable, Covered, IdUsed, Balance;
      ServeFacts(db, op.id, op.req, op.debitLag, op.creditLag);
      ServeFacts(db, op.id, op.req, 0, 0);
    }
  }

  /** A history reaches the same tables when each of its operations is executed alone only if
      none of them lagged: rows are never taken back. */
  lemma {:induction false} AloneOnlyIfPrompt(db: Tables, ops: seq<Op>)
    requires ApplyAll(db, ops).Some? && ApplyAll(db, AllAlone(ops)) == ApplyAll(db, ops)
    requires forall op <- ops :: LagsOnCustomers(op)
    ensures forall op <- ops :: op.Prompt()
    decreases |ops|
  {
    hide Apply, Alone, LagsOnCustomers, Extends;
    if ops != [] {
      var op, rest := ops[0], ops[1..];
      assert AllAlone(ops)[0] == Alone(op) && AllAlone(ops)[1..] == AllAlone(rest);
      assert op in ops;
      var x, y := Apply(db, op).value, Apply(db, Alone(op)).value;
      HistoryExtends(x, rest);
      HistoryExtends(y, AllAlone(rest));
      SameSize(db, op);
      SamePrefix(x, y, ApplyAll(db, ops).value);
      SameTablesNoLag(db, op);
      AloneOnlyIfPrompt(x, rest);
    }
  }

  /** A commit writes what the request would write if it were served alone at that moment
      exactly if no entry has reached its accounts since they were locked. */
  lemma {:induction false} PromptIff(s: State, c: Id)
    requires Inv(s) && CanStep(s, c) && s.clients[c].pc.Committing?
    ensures Apply(s.db, Serve(c, s.clients[c].req, 0, 0)) == Some(DoStep(s, c).db)
       <==> UntouchedSinceLock(s, s.clients[c])
  {
    assert Enabled(s, Step(c));
    hide Inv, UntouchedSinceLock, Apply, DoStep, Lag, LagsOnCustomers, CanStep;
    LagsZeroIff(s, c);
    Serialisability.CommitIsAtomic(s, c);
    CommittedLags(s, Step(c));
    var op := Committed(s, Step(c))[0];
    assert op in Committed(s, Step(c));
    if Apply(s.db, Alone(op)) == Some(DoStep(s, c).db) { SameTablesNoLag(s.db, op); }
  }

  /** The tables of a run are those of a serial execution of its operations, each of them
      alone and running balances included, exactly if no entry overtakes a commit on an
      account it has locked. */
  lemma {:induction false} SerialIff(s: State, acts: seq<Action>)
    requires Inv(s) && IsRun(s, acts)
    ensures ApplyAll(s.db, AllAlone(History(s, acts))) == Some(Run(s, acts).db) <==> NoneOvertaken(s, acts)
  {
    hide Inv, Apply, LagsOnCustomers, NoneOvertaken;
    Serialisability.Serialisable(s, acts);
    AllPromptIff(s, acts);
    HistoryLags(s, acts);
    if NoneOvertaken(s, acts) {
      PromptIsAlone(History(s, acts));
    } else if ApplyAll(s.db, AllAlone(History(s, acts))) == Some(Run(s, acts).db) {
      AloneOnlyIfPrompt(s.db, History(s, acts));
    }
  }
}
