/** How every request ends: exactly when each error is the outcome, under interleaving; and
    what a request run alone does and answers. */
module Outcomes {
  import opened Common
  import opened Decimals
  import opened Ledger
  import opened Engine
  import opened EngineInvariants
  import opened LedgerLaws
  import opened Records
  import Answers
  import Deadlock
  import Idempotency
  import LexOrder
  import Serialisability
  import StatusChecks

  // ---------- Under interleaving ----------

  /** The step that client `c` is about to take fails with `e`. */
  predicate FailsNow(s: State, c: Id, e: Error) {
    CanStep(s, c) &&
    var cl := s.clients[c];
    match cl.pc
    case Validating => Validate(cl.req) == Some(e)
    case CheckingStatus(i) =>
      var a := cl.req.Accounts()[i];
      if a !in s.accounts then e == AccountNotFound else !s.accounts[a] && e == AccountNotActive
    case CheckingFunds => !Funded(cl.req, a => ReadBalance(s, cl, a)) && e == InsufficientFunds
    case InsertingHeader => e == DatabaseError && exists t <- s.db.txns :: t.key == cl.req.key
    case InsertingDebit => e == DatabaseError && !DebitFits(cl.req, a => ReadBalance(s, cl, a))
    case InsertingCredit => e == DatabaseError && !CreditFits(cl.req, a => ReadBalance(s, cl, a))
    case _ => false
  }

  predicate DebitFits(req: Request, read: AccountId -> int) {
    match req
    case DepositRequest(_, Amount(v), _, _) => 0 < Round(v) && Fits(Round(v))
    case WithdrawalRequest(a, Amount(v), _, _) => 0 < Round(v) && Fits(Round(v)) && Fits(Round(read(a) as real - v))
    case TransferRequest(a, _, Amount(v), _, _) => 0 < Round(v) && Fits(Round(v)) && Fits(Round(read(a) as real - v))
    case _ => false
  }

  predicate CreditFits(req: Request, read: AccountId -> int) {
    match req
    case DepositRequest(a, Amount(v), _, _) => 0 < Round(v) && Fits(Round(v)) && Fits(Round(read(a) as real + v))
    case WithdrawalRequest(_, Amount(v), _, _) => 0 < Round(v) && Fits(Round(v))
    case TransferRequest(_, b, Amount(v), _, _) => 0 < Round(v) && Fits(Round(v)) && Fits(Round(read(b) as real + v))
    case _ => false
  }

  lemma {:induction false} LegsFit(id: Id, req: Request, read: AccountId -> int)
    requires Acceptable(req)
    ensures Storable(DebitLeg(id, req, read(req.Debited()))) <==> DebitFits(req, read)
    ensures Storable(CreditLeg(id, req, read(req.Credited()))) <==> CreditFits(req, read)
    ensures Covered(req, read(req.Debited())) <==> Funded(req, read)
  {
    NamedAccounts(req);
    assert Round(0.0) == 0;
    hide Round, Validate;
  }

  lemma {:induction false} InTxIsAcceptable(s: State, c: Id)
    requires Inv(s) && c in s.clients && InTx(s.clients[c])
    ensures Acceptable(s.clients[c].req)
  {
    assert ClientOk(s, c, s.clients[c]);
    hide HoldsOk, ReadsOk, RowsOk, WritesOk, Validate;
  }

  lemma {:induction false} FundsStepFailsIff(s: State, c: Id, e: Error)
    requires Inv(s) && CanStep(s, c) && s.clients[c].pc.CheckingFunds?
    ensures c in DoStep(s, c).clients
    ensures DoStep(s, c).clients[c].pc == Done(Failed(e)) <==> FailsNow(s, c, e)
    ensures DoStep(s, c).clients[c].pc == InsertingHeader <==> Funded(s.clients[c].req, a => ReadBalance(s, s.clients[c], a))
  {
    var cl := s.clients[c];
    InTxIsAcceptable(s, c);
    SeenIsRead(s, c, cl.req.Debited());
    LegsFit(c, cl.req, a => ReadBalance(s, cl, a));
    hide Inv, ReadBalance, SeenBalance, Covered, Funded, Acceptable, Storable, DebitLeg, CreditLeg, Blocked;
  }

  lemma {:induction false} HeaderStepFailsIff(s: State, c: Id, e: Error)
    requires CanStep(s, c) && s.clients[c].pc.InsertingHeader?
    ensures c in DoStep(s, c).clients && (DoStep(s, c).clients[c].pc == Done(Failed(e)) <==> FailsNow(s, c, e))
  {
    hide Validate, Blocked, Goto, Release, LexOrder.Less;
  }

  /** What a leg insert does, and what decides it. */
  lemma {:induction false} LegFacts(s: State, c: Id)
    requires Inv(s) && c in s.clients && InTx(s.clients[c])
    ensures var req := s.clients[c].req;
            && Acceptable(req)
            && (Storable(DebitLeg(c, req, SeenBalance(s.clients[c], req.Debited())))
                <==> DebitFits(req, a => ReadBalance(s, s.clients[c], a)))
            && (Storable(CreditLeg(c, req, SeenBalance(s.clients[c], req.Credited())))
                <==> CreditFits(req, a => ReadBalance(s, s.clients[c], a)))
  {
    var cl := s.clients[c];
    InTxIsAcceptable(s, c);
    SeenIsRead(s, c, cl.req.Debited());
    SeenIsRead(s, c, cl.req.Credited());
    LegsFit(c, cl.req, a => ReadBalance(s, cl, a));
    hide Inv, ReadBalance, SeenBalance, DebitFits, CreditFits, Covered, Funded, Validate, Storable, DebitLeg, CreditLeg;
  }

  lemma {:induction false} LegStepFailsIff(s: State, c: Id, e: Error)
    requires Inv(s) && CanStep(s, c) && (s.clients[c].pc.InsertingDebit? || s.clients[c].pc.InsertingCredit?)
    ensures c in DoStep(s, c).clients && (DoStep(s, c).clients[c].pc == Done(Failed(e)) <==> FailsNow(s, c, e))
  {
    LegFacts(s, c);
    hide Inv, ReadBalance, SeenBalance, DebitFits, CreditFits, Funded, Validate, Storable, DebitLeg, CreditLeg, Blocked,
         Goto, Release;
  }

  lemma {:induction false} CheckStepFailsIff(s: State, c: Id, e: Error)
    requires CanStep(s, c) && Phase(s.clients[c].pc) <= 2
    ensures c in DoStep(s, c).clients && (DoStep(s, c).clients[c].pc == Done(Failed(e)) <==> FailsNow(s, c, e))
  {
    hide Validate, FindKey, Blocked, Funded, CheckFunds, InsertHeader, InsertLeg, GrantLock, Goto, Release, LexOrder.Less,
         DebitFits, CreditFits, Balance;
  }

  /** A transaction that is to be read back is there. */
  lemma {:induction false} FetchDoesNotFail(s: State, c: Id, e: Error)
    requires Inv(s) && CanStep(s, c) && s.clients[c].pc.FetchingHeader?
    ensures c in DoStep(s, c).clients && DoStep(s, c).clients[c].pc != Done(Failed(e)) && !FailsNow(s, c, e)
  {
    assert ClientOk(s, c, s.clients[c]);
    hide Inv, ShapeOk, HoldsOk, ReadsOk, RowsOk, Validate, LexOrder.Less, FindId, LegsOf, Balance, Blocked, Funded, Release;
    var t :| t in s.db.txns && t.id == s.clients[c].pc.id;
  }

  lemma {:induction false} OtherStepsDoNotFail(s: State, c: Id, e: Error)
    requires CanStep(s, c) && (Phase(s.clients[c].pc) == 3 || Phase(s.clients[c].pc) >= 8) && !s.clients[c].pc.FetchingHeader?
    ensures c in DoStep(s, c).clients && DoStep(s, c).clients[c].pc != Done(Failed(e)) && !FailsNow(s, c, e)
  {
    hide Inv, Validate, LexOrder.Less, FindId, LegsOf, Balance, CommitRows, Append, Goto, Release, SettledEvent, Blocked, Funded;
  }

  /** A step of a client ends it with an error exactly when the step's own condition fails. */
  lemma {:induction false} StepFailsIff(s: State, c: Id, e: Error)
    requires Inv(s) && CanStep(s, c)
    ensures c in DoStep(s, c).clients && (DoStep(s, c).clients[c].pc == Done(Failed(e)) <==> FailsNow(s, c, e))
  {
    hide Inv, DoStep, FailsNow, Blocked, Sane;
    var phase := Phase(s.clients[c].pc);
    if phase <= 2 {
      CheckStepFailsIff(s, c, e);
    } else if phase == 4 {
      FundsStepFailsIff(s, c, e);
    } else if phase == 5 {
      HeaderStepFailsIff(s, c, e);
    } else if 6 <= phase <= 7 {
      LegStepFailsIff(s, c, e);
    } else if s.clients[c].pc.FetchingHeader? {
      FetchDoesNotFail(s, c, e);
    } else {
      OtherStepsDoNotFail(s, c, e);
    }
  }

  /** Somewhere in the run the client takes a step that fails with `e`, or is aborted. */
  predicate FailsIn(s: State, acts: seq<Action>, c: Id, e: Error)
    requires IsRun(s, acts)
    decreases |acts|
  {
    acts != [] &&
    (|| (acts[0] == Step(c) && FailsNow(s, c, e))
     || (acts[0] == Abort(c) && e == DatabaseError)
     || FailsIn(Next(s, acts[0]), acts[1..], c, e))
  }

  predicate FailedWith(s: State, c: Id, e: Error) { c in s.clients && s.clients[c].pc == Done(Failed(e)) }

  lemma {:induction false} NextFailsIff(s: State, act: Action, c: Id, e: Error)
    requires Inv(s) && Enabled(s, act)
    ensures FailedWith(Next(s, act), c, e) <==>
              FailedWith(s, c, e) || (act == Step(c) && FailsNow(s, c, e)) || (act == Abort(c) && e == DatabaseError)
  {
    hide Inv, DoStep, FailsNow, CanStep, FreshPostings, PostingRows, Append;
    if act == Step(c) {
      assert CanStep(s, c);
      StepFailsIff(s, c, e);
      Deadlock.CanStepIsClient(s, c);
      StepperIsUnfinished(s, c);
    } else if act.Arrive? && act.c == c {
    } else if act == Abort(c) {
    } else if c in s.clients {
      Idempotency.OthersMove(s, act, c);
    } else if c in Next(s, act).clients {
      Answers.ClientsStay(s, act, c);
    }
  }

  lemma {:induction false} StepperIsUnfinished(s: State, c: Id)
    requires CanStep(s, c)
    ensures c in s.clients && !s.clients[c].pc.Done?
  {
  }

  lemma {:induction false} RunFailsIff(s: State, acts: seq<Action>, c: Id, e: Error)
    requires Inv(s) && IsRun(s, acts)
    ensures FailedWith(Run(s, acts), c, e) <==> FailedWith(s, c, e) || FailsIn(s, acts, c, e)
    decreases |acts|
  {
    hide Inv, Next, Enabled, FailsNow, FailedWith;
    if acts != [] {
      NextKeeps(s, acts[0]);
      NextFailsIff(s, acts[0], c, e);
      RunFailsIff(Next(s, acts[0]), acts[1..], c, e);
    }
  }

  /** Under every interleaving a client has ended with an error exactly if one of its steps met
      the condition of that error, or a database call of it failed. */
  lemma {:induction false} FailedIff(start: State, acts: seq<Action>, c: Id, e: Error)
    requires Init(start) && IsRun(start, acts)
    ensures FailedWith(Run(start, acts), c, e) <==> FailsIn(start, acts, c, e)
  {
    InitOk(start);
    RunFailsIff(start, acts, c, e);
    hide FailsIn, Inv;
  }
}
