/** Every interleaving commits what its committed operations, executed one at a time in
    commit order, would have committed. */
module Serialisability {
  import opened Common
  import opened Ledger
  import opened Engine
  import opened EngineInvariants
  import LexOrder

  /** Nobody has written to `a` since the first `from` rows. */
  predicate Untouched(es: seq<Entry>, from: nat, a: AccountId) {
    forall i | from <= i < |es| :: es[i].account != a
  }

  /** Interest only adds, so a balance read under a lock can only fall behind: by the interest
      credited since, and so exactly when any has been. */
  lemma {:induction false} InterestOnlyAdds(es: seq<Entry>, from: nat, a: AccountId)
    requires from <= |es| && OnlyInterestSince(es, from, a)
    ensures Balance(es, a) == Balance(es[..from], a) + InterestCredits(es[from..], a)
    ensures InterestCredits(es[from..], a) >= 0
    ensures InterestCredits(es[from..], a) == 0 <==> Untouched(es, from, a)
  {
    if from == |es| {
      assert es[..from] == es;
    } else {
      var init := es[..|es| - 1];
      assert init[..from] == es[..from];
      assert es[from..][..|es| - from - 1] == init[from..];
      InterestOnlyAdds(init, from, a);
    }
  }

  /** Interest credited to `a` since the client locked it; none for an account it did not lock. */
  function InterestSince(s: State, cl: Client, a: AccountId): int {
    if a in cl.seen && cl.seen[a].rows <= |s.db.entries| then InterestCredits(s.db.entries[cl.seen[a].rows..], a) else 0
  }

  /** A balance read under a lock is behind by the interest credited since, and by nothing
      else, so it is current exactly if no entry has reached the account. */
  lemma {:induction false} LagIsInterestSince(s: State, c: Id, a: AccountId)
    requires Inv(s) && c in s.clients
    ensures Lag(s, s.clients[c], a) == InterestSince(s, s.clients[c], a)
    ensures a in s.clients[c].seen ==>
              var read := s.clients[c].seen[a];
              && read.rows <= |s.db.entries|
              && Balance(s.db.entries, a) == read.balance + InterestCredits(s.db.entries[read.rows..], a)
              && (InterestSince(s, s.clients[c], a) == 0 <==> Untouched(s.db.entries, read.rows, a))
  {
    var cl := s.clients[c];
    if a in cl.seen {
      assert ReadOk(s.db.entries, a, cl.seen[a]) by {
        assert ClientOk(s, c, cl);
        hide ShapeOk, HoldsOk, RowsOk, WellFormed;
      }
      hide Inv;
      InterestOnlyAdds(s.db.entries, cl.seen[a].rows, a);
    }
  }

  /** What the legs need to know about the balances seen, given the lags. */
  lemma {:induction false} SeenIsBalanceMinusLag(s: State, c: Id, cl: Client, a: AccountId)
    requires Inv(s) && c in s.clients && cl == s.clients[c] && cl.pc.Committing?
    requires a == cl.req.Debited() || a == cl.req.Credited()
    ensures a != GL_CASH ==> SeenBalance(cl, a) == Balance(s.db.entries, a) - Lag(s, cl, a)
  {
    if a != GL_CASH {
      assert a in cl.seen by {
        assert ClientOk(s, c, cl);
        assert a in Held(cl);
        hide ShapeOk, RowsOk, WellFormed, LexOrder.Less, Held, HoldsOk;
      }
      LagIsInterestSince(s, c, a);
    }
  }

  /** What a committing client is about to commit. */
  lemma {:induction false} CommitRowsShape(c: Id, cl: Client)
    requires ShapeOk(c, cl) && cl.pc.Committing?
    ensures Acceptable(cl.req) && Covered(cl.req, SeenBalance(cl, cl.req.Debited()))
    ensures CommitRows(cl)
         == ServedRows(c, cl.req, SeenBalance(cl, cl.req.Debited()), SeenBalance(cl, cl.req.Credited()))
    ensures forall e <- CommitRows(cl).entries :: Storable(e)
  {
    hide Acceptable, Covered, Validate, Storable, DebitLeg, CreditLeg;
  }

  lemma {:induction false} LegsDependOnCustomersOnly(id: Id, req: Request, x: int, y: int)
    requires req.amount.Amount?
    ensures req.Debited() == GL_CASH ==> DebitLeg(id, req, x) == DebitLeg(id, req, y)
    ensures req.Credited() == GL_CASH ==> CreditLeg(id, req, x) == CreditLeg(id, req, y)
  {
  }

  lemma {:induction false} ServeIsAppend(db: Tables, id: Id, req: Request, debitLag: nat, creditLag: nat, rows: Tables)
    requires Acceptable(req) && !KeyUsed(db, req.key) && !IdUsed(db, id)
    requires Covered(req, Balance(db.entries, req.Debited()) - debitLag)
    requires rows == ServedRows(id, req, Balance(db.entries, req.Debited()) - debitLag,
                                Balance(db.entries, req.Credited()) - creditLag)
    requires forall e <- rows.entries :: Storable(e)
    ensures Apply(db, Serve(id, req, debitLag, creditLag)) == Some(Append(db, rows))
  {
    hide Acceptable, KeyUsed, IdUsed, Covered, ServedRows, Storable, Balance, Append;
  }

  /** What a committing client's invariant says, in one place. */
  lemma {:induction false} CommittingFacts(s: State, c: Id, cl: Client)
    requires Inv(s) && c in s.clients && cl == s.clients[c] && cl.pc.Committing?
    ensures ShapeOk(c, cl) && !KeyUsed(s.db, cl.req.key) && !IdUsed(s.db, c)
    ensures cl.req.amount.Amount?
  {
    assert ClientOk(s, c, cl);
    hide ShapeOk, HoldsOk, ReadsOk, Validate;
  }

  lemma {:induction false} CashOnlyFundsDeposits(req: Request)
    requires Acceptable(req)
    ensures req.Debited() == GL_CASH ==> req.DepositRequest?
  {
    if !req.DepositRequest? {
      assert req.Accounts()[0] == req.Debited();
      assert !IsInternal(req.Debited());
    }
  }

  lemma {:induction false} CoverIsCurrent(s: State, c: Id, cl: Client)
    requires Inv(s) && c in s.clients && cl == s.clients[c] && cl.pc.Committing? && Acceptable(cl.req)
    requires Covered(cl.req, SeenBalance(cl, cl.req.Debited()))
    ensures Covered(cl.req, Balance(s.db.entries, cl.req.Debited()) - Lag(s, cl, cl.req.Debited()))
  {
    hide Inv, Balance, Lag, SeenBalance, Acceptable, ClientOk;
    CashOnlyFundsDeposits(cl.req);
    SeenIsBalanceMinusLag(s, c, cl, cl.req.Debited());
  }

  lemma {:induction false} LegsAreCurrent(s: State, c: Id, cl: Client)
    requires Inv(s) && c in s.clients && cl == s.clients[c] && cl.pc.Committing? && cl.req.amount.Amount?
    ensures ServedRows(c, cl.req, Balance(s.db.entries, cl.req.Debited()) - Lag(s, cl, cl.req.Debited()),
                       Balance(s.db.entries, cl.req.Credited()) - Lag(s, cl, cl.req.Credited()))
         == ServedRows(c, cl.req, SeenBalance(cl, cl.req.Debited()), SeenBalance(cl, cl.req.Credited()))
  {
    hide Inv, Balance, Lag, SeenBalance, DebitLeg, CreditLeg;
    var debited, credited := cl.req.Debited(), cl.req.Credited();
    SeenIsBalanceMinusLag(s, c, cl, debited);
    SeenIsBalanceMinusLag(s, c, cl, credited);
    LegsDependOnCustomersOnly(c, cl.req, Balance(s.db.entries, debited) - Lag(s, cl, debited), SeenBalance(cl, debited));
    LegsDependOnCustomersOnly(c, cl.req, Balance(s.db.entries, credited) - Lag(s, cl, credited),
                              SeenBalance(cl, credited));
  }

  /** A commit does to the ledger what the atomic reference does. */
  lemma {:induction false} CommitIsAtomic(s: State, c: Id)
    requires Inv(s) && CanStep(s, c) && s.clients[c].pc.Committing?
    ensures |Committed(s, Step(c))| == 1
    ensures Apply(s.db, Committed(s, Step(c))[0]) == Some(DoStep(s, c).db)
  {
    hide Inv, ClientOk, ShapeOk, Storable, CommitRows, ServedRows, Balance, Lag, Acceptable, KeyUsed, IdUsed, Covered,
         DoStep, Apply, Append;
    var cl := s.clients[c];
    CommittingFacts(s, c, cl);
    CommitRowsShape(c, cl);
    LegsAreCurrent(s, c, cl);
    CoverIsCurrent(s, c, cl);
    StepRowsFrame(s, c);
    ServeIsAppend(s.db, c, cl.req, Lag(s, cl, cl.req.Debited()), Lag(s, cl, cl.req.Credited()), CommitRows(cl));
  }

  lemma {:induction false} NextIsAtomic(s: State, act: Action)
    requires Inv(s) && Enabled(s, act)
    ensures ApplyAll(s.db, Committed(s, act)) == Some(Next(s, act).db)
  {
    var ops := Committed(s, act);
    if act.Step? && s.clients[act.c].pc.Committing? {
      CommitIsAtomic(s, act.c);
      assert ops == [ops[0]];
    } else if act.Step? {
      StepRowsFrame(s, act.c);
    }
    hide Inv, DoStep, FreshPostings, PostingRows;
    if act.PostInterest? { assert FreshPostings(s.db, act.postings); }
  }

  lemma {:induction false} ApplyAllConcat(db: Tables, ops: seq<Op>, more: seq<Op>)
    requires ApplyAll(db, ops).Some?
    ensures ApplyAll(db, ops + more) == ApplyAll(ApplyAll(db, ops).value, more)
    decreases |ops|
  {
    hide Apply;
    if ops == [] {
      assert ops + more == more;
    } else {
      assert (ops + more)[1..] == ops[1..] + more;
      ApplyAllConcat(Apply(db, ops[0]).value, ops[1..], more);
    }
  }

  /** Serialisability: for any number of clients, any interleaving of their steps, aborts
      anywhere and interest runs anywhere, the committed tables are those of executing the
      committed operations one at a time, in commit order. */
  lemma {:induction false} Serialisable(s: State, acts: seq<Action>)
    requires Inv(s) && IsRun(s, acts)
    ensures ApplyAll(s.db, History(s, acts)) == Some(Run(s, acts).db)
    decreases |acts|
  {
    hide Inv, Apply, Next, Enabled, Committed;
    if acts != [] {
      var t := Next(s, acts[0]);
      NextKeeps(s, acts[0]);
      NextIsAtomic(s, acts[0]);
      Serialisable(t, acts[1..]);
      ApplyAllConcat(s.db, Committed(s, acts[0]), History(t, acts[1..]));
    }
  }

  // ---------- When the balances seen are the ledger's own ----------

  /** No interest run credits an account while somebody holds its lock. */
  predicate Quiet(s: State, acts: seq<Action>)
    requires IsRun(s, acts)
    decreases |acts|
  {
    acts == [] ||
    (QuietAction(s, acts[0]) && Quiet(Next(s, acts[0]), acts[1..]))
  }

  predicate QuietAction(s: State, act: Action) {
    act.PostInterest? ==> forall p <- act.postings :: p.account !in s.locks
  }

  /** Every balance read under a lock is still the balance. */
  ghost predicate ReadsCurrent(s: State) {
    forall c, a | c in s.clients && a in s.clients[c].seen ::
      s.clients[c].seen[a].balance == Balance(s.db.entries, a)
  }

  lemma {:induction false} HeldUnaffected(s: State, c: Id, d: Id, a: AccountId)
    requires Inv(s) && c in s.clients && d in s.clients && c != d && s.clients[c].pc.Committing?
    requires a in s.clients[d].seen
    ensures Balance(s.db.entries + CommitRows(s.clients[c]).entries, a) == Balance(s.db.entries, a)
  {
    var cl, other := s.clients[c], s.clients[d];
    assert ClientOk(s, c, cl) && ClientOk(s, d, other);
    assert a in Held(other);
    CommitAccounts(c, cl);
    HeldAreCustomers(d, other);
    HeldDisjoint(s, c, cl, d, other);
    hide Inv, ClientOk, Held, CommitRows, WellFormed;
    var rows := CommitRows(cl).entries;
    BalanceAppend(s.db.entries, rows, a);
    BalanceUntouched(rows, a);
  }

  /** A step clears the client's reads, keeps them, or adds one that is current. */
  lemma {:induction false} StepReads(s: State, c: Id)
    requires CanStep(s, c)
    ensures c in DoStep(s, c).clients
    ensures s.clients[c].pc.Committing? ==> DoStep(s, c).clients[c].seen == map[]
    ensures forall a | a in DoStep(s, c).clients[c].seen ::
              var read := DoStep(s, c).clients[c].seen[a];
              (a in s.clients[c].seen && read == s.clients[c].seen[a]) || read.balance == Balance(s.db.entries, a)
  {
    hide Validate, LexOrder.Less, FindKey, FindId, LegsOf, KeyUsed, DebitLeg, CreditLeg, Storable, Balance, Covered,
         SettledEvent, CommitRows, Append, Goto, Release;
  }

  lemma {:induction false} StepStaysCurrent(s: State, c: Id)
    requires Inv(s) && CanStep(s, c) && ReadsCurrent(s)
    ensures ReadsCurrent(DoStep(s, c))
  {
    var t := DoStep(s, c);
    StepReads(s, c);
    StepClientsFrame(s, c);
    StepRowsFrame(s, c);
    hide DoStep, Inv, CanStep, CommitRows;
    forall d, a | d in t.clients && a in t.clients[d].seen
      ensures t.clients[d].seen[a].balance == Balance(t.db.entries, a)
    {
      if s.clients[c].pc.Committing? && d != c { HeldUnaffected(s, c, d, a); }
    }
  }

  lemma {:induction false} ReadAccountsAreLocked(s: State, d: Id, a: AccountId)
    requires Inv(s) && d in s.clients && a in s.clients[d].seen
    ensures a in s.locks && !IsInternal(a)
  {
    var cl := s.clients[d];
    assert ClientOk(s, d, cl);
    hide Inv, RowsOk, WellFormed;
    HeldAreCustomers(d, cl);
    hide ShapeOk;
    assert Owns(s.locks, a, d);
  }

  lemma {:induction false} PostStaysCurrent(s: State, ps: seq<Posting>)
    requires Inv(s) && CanPost(s, ps) && ReadsCurrent(s) && QuietAction(s, PostInterest(ps))
    ensures ReadsCurrent(Next(s, PostInterest(ps)))
  {
    hide PostingRows, Inv;
    var t, rows := Next(s, PostInterest(ps)), PostingRows(ps, s.expenseSide).entries;
    forall d, a | d in t.clients && a in t.clients[d].seen
      ensures t.clients[d].seen[a].balance == Balance(t.db.entries, a)
    {
      ReadAccountsAreLocked(s, d, a);
      BalanceAppend(s.db.entries, rows, a);
      PostingLegsOnly(ps, s.expenseSide);
      BalanceUntouched(rows, a);
    }
  }

  lemma {:induction false} NextStaysCurrent(s: State, act: Action)
    requires Inv(s) && Enabled(s, act) && ReadsCurrent(s) && QuietAction(s, act)
    ensures ReadsCurrent(Next(s, act))
  {
    match act
    case Arrive(_, _) =>
    case Step(c) => hide Inv; StepStaysCurrent(s, c);
    case Abort(_) =>
    case PostInterest(ps) => hide Inv; PostStaysCurrent(s, ps);
    case SetStatus(_, _) =>
  }

  lemma {:induction false} PromptHistory(s: State, acts: seq<Action>)
    requires Inv(s) && IsRun(s, acts) && ReadsCurrent(s) && Quiet(s, acts)
    ensures forall op <- History(s, acts) :: op.Prompt()
    decreases |acts|
  {
    if acts != [] {
      hide Inv, Next, Enabled;
      NextKeeps(s, acts[0]);
      NextStaysCurrent(s, acts[0]);
      PromptHistory(Next(s, acts[0]), acts[1..]);
      assert forall op <- Committed(s, acts[0]) :: op.Prompt();
    }
  }

  /** With no interest credited under a held lock, a run is a serial execution of the
      committed requests by themselves: every running balance included. */
  lemma {:induction false} QuietRunsAreSerial(s: State, acts: seq<Action>)
    requires Init(s) && IsRun(s, acts) && Quiet(s, acts)
    ensures ApplyAll(EMPTY, History(s, acts)) == Some(Run(s, acts).db)
    ensures forall op <- History(s, acts) :: op.Prompt()
  {
    InitOk(s);
    Serialisable(s, acts);
    PromptHistory(s, acts);
  }
}
